/**
 * The topic check every public operation of the bus starts with:
 * `typeof type === 'string' && type.trim() !== ''`.
 * `String.prototype.trim` removes the code points that ECMAScript classes
 * as WhiteSpace (section 12.2 of ECMA-262) or LineTerminator (section 12.3)
 * from both ends.
 */
module Topic {
  import opened JsValue

  /** WhiteSpace or LineTerminator, the code points `trim` removes. */
  predicate IsTrimmable(c: char) {
    || c == '\t' || c == '\n' || c == '\U{000B}' || c == '\U{000C}' || c == '\r'
    || c == ' ' || c == '\U{00A0}' || c == '\U{1680}'
    || ('\U{2000}' <= c <= '\U{200A}')
    || c == '\U{2028}' || c == '\U{2029}' || c == '\U{202F}' || c == '\U{205F}'
    || c == '\U{3000}' || c == '\U{FEFF}'
  }

  /** The number of trimmable code points at the start of `s`. */
  function LeadingTrimmable(s: string): (n: nat)
    ensures n <= |s|
  {
    if s != [] && IsTrimmable(s[0]) then 1 + LeadingTrimmable(s[1..]) else 0
  }

  /** The number of trimmable code points at the end of `s`. */
  function TrailingTrimmable(s: string): (n: nat)
    ensures n <= |s|
  {
    if s != [] && IsTrimmable(s[|s| - 1]) then 1 + TrailingTrimmable(s[..|s| - 1]) else 0
  }

  /** Drops the trimmable prefix. */
  function TrimStart(s: string): string {
    s[LeadingTrimmable(s)..]
  }

  /** Drops the trimmable suffix. */
  function TrimEnd(s: string): string {
    s[..|s| - TrailingTrimmable(s)]
  }

  /** `LeadingTrimmable` counts the longest prefix of trimmable code points:
      all of them are trimmable and the next one, if any, is not. */
  lemma {:induction false} LeadingTrimmableSpec(s: string)
    ensures forall i :: 0 <= i < LeadingTrimmable(s) ==> IsTrimmable(s[i])
    ensures LeadingTrimmable(s) < |s| ==> !IsTrimmable(s[LeadingTrimmable(s)])
  {
    if s != [] && IsTrimmable(s[0]) {
      LeadingTrimmableSpec(s[1..]);
      forall i | 0 < i < LeadingTrimmable(s) ensures IsTrimmable(s[i]) {
        assert s[i] == s[1..][i - 1];
      }
    }
  }

  /** `TrailingTrimmable` counts the longest suffix of trimmable code points. */
  lemma {:induction false} TrailingTrimmableSpec(s: string)
    ensures forall i :: |s| - TrailingTrimmable(s) <= i < |s| ==> IsTrimmable(s[i])
    ensures TrailingTrimmable(s) < |s| ==> !IsTrimmable(s[|s| - 1 - TrailingTrimmable(s)])
  {
    if s != [] && IsTrimmable(s[|s| - 1]) {
      TrailingTrimmableSpec(s[..|s| - 1]);
      forall i | |s| - TrailingTrimmable(s) <= i < |s| - 1 ensures IsTrimmable(s[i]) {
        assert s[i] == s[..|s| - 1][i];
      }
    }
  }

  /** `s.trim()`: what remains neither starts nor ends with a code point
      `trim` removes. */
  function Trim(s: string): (r: string)
    ensures |r| <= |s|
    ensures r != [] ==> !IsTrimmable(r[0]) && !IsTrimmable(r[|r| - 1])
  {
    LeadingTrimmableSpec(s);
    TrailingTrimmableSpec(TrimStart(s));
    TrimEnd(TrimStart(s))
  }

  /** The bus accepts a topic when it is a string and not blank; in
      particular it is never the empty string. */
  predicate IsValidTopic(topic: Value)
    ensures IsValidTopic(topic) ==> topic.Str? && topic.text != ""
  {
    topic.Str? && Trim(topic.text) != ""
  }

  /** `trim` yields the empty string exactly for blank strings. */
  lemma {:induction false} TrimEmptyIffBlank(s: string)
    ensures Trim(s) == "" <==> forall i :: 0 <= i < |s| ==> IsTrimmable(s[i])
  {
    var t := TrimStart(s);
    LeadingTrimmableSpec(s);
    TrailingTrimmableSpec(t);
    if Trim(s) != "" {
      var n := LeadingTrimmable(s);
      assert s[n] == t[0];
    }
  }

  /** The topic check, stated without `trim`: a string with at least one
      character that is neither white space nor a line terminator. */
  lemma {:induction false} ValidTopicIff(topic: Value)
    ensures IsValidTopic(topic) <==>
      topic.Str? && exists i :: 0 <= i < |topic.text| && !IsTrimmable(topic.text[i])
  {
    if topic.Str? {
      TrimEmptyIffBlank(topic.text);
    }
  }

  /** A string that starts with a character `trim` keeps passes the check. */
  lemma {:induction false} ValidTopicFromFirst(s: string)
    requires s != [] && !IsTrimmable(s[0])
    ensures IsValidTopic(Str(s))
  {
    assert LeadingTrimmable(s) == 0;
    assert TrimStart(s) == s;
    TrailingTrimmableSpec(s);
  }
}
