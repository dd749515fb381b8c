/** An AI-suggestion conversation: the prompt, the streamed reply, and
    the reply read as a list of suggestions, one per line, with list
    numbering such as `1. ` removed. */
module Conversations {
  import opened Text

  datatype Conversation = Conversation(id: string, prompt: string, content: string)

  /** Length of the run of leading digits. */
  function LeadingDigits(s: string): (n: nat)
    ensures n <= |s|
    ensures forall i :: 0 <= i < n ==> IsDigit(s[i])
    ensures n < |s| ==> !IsDigit(s[n])
  {
    if |s| > 0 && IsDigit(s[0]) then 1 + LeadingDigits(s[1..]) else 0
  }

  /** Text matching the pattern `\d+\.\s*`: digits, a dot, whitespace. */
  predicate IsNumberPrefix(p: string) {
    var n := LeadingDigits(p);
    0 < n < |p| && p[n] == '.' && forall i :: n < i < |p| ==> IsSpace(p[i])
  }

  /** The line starts with digits followed by a dot, so the regular
      expression `^\d+\.\s*` matches it. */
  predicate HasNumberPrefix(line: string) {
    var n := LeadingDigits(line);
    0 < n < |line| && line[n] == '.'
  }

  /** Replaces the one match of `^\d+\.\s*` (which, being anchored and
      greedy, takes the whole run of whitespace after the dot) with
      nothing. */
  function StripNumberPrefix(line: string): (r: string)
    ensures |r| <= |line| && r == line[|line| - |r|..]
    ensures !HasNumberPrefix(line) ==> r == line
    ensures HasNumberPrefix(line) ==> IsNumberPrefix(line[..|line| - |r|])
    ensures HasNumberPrefix(line) && |r| > 0 ==> !IsSpace(r[0])
  {
    if HasNumberPrefix(line) then
      var n := LeadingDigits(line);
      var r := TrimStart(line[n + 1..]);
      assert LeadingDigits(line[..|line| - |r|]) == n by {
        LeadingDigitsPrefix(line, |line| - |r|);
      }
      r
    else line
  }

  /** Leading digits are not affected by cutting after them. */
  lemma {:induction false} LeadingDigitsPrefix(s: string, k: nat)
    requires LeadingDigits(s) < k <= |s|
    ensures LeadingDigits(s[..k]) == LeadingDigits(s)
  {
    if |s| > 0 && IsDigit(s[0]) {
      assert s[..k][1..] == s[1..][..k - 1];
      LeadingDigitsPrefix(s[1..], k - 1);
    }
  }

  /** One line of the list: trimmed, then with its numbering removed. */
  function CleanLine(line: string): (r: string)
    ensures NoOuterSpace(r)
    ensures r == StripNumberPrefix(Trim(line))
  {
    var t := Trim(line);
    var r := StripNumberPrefix(t);
    assert |r| > 0 ==> r[|r| - 1] == t[|t| - 1];
    r
  }

  /** `contentArray`: nothing for an empty reply, otherwise one cleaned
      entry per line. */
  function ContentArray(content: string): (r: seq<string>)
    ensures content == "" ==> r == []
    ensures content != "" ==> |r| == Count(content, '\n') + 1
    ensures content != "" ==> forall i :: 0 <= i < |r| ==> r[i] == CleanLine(Split(content, '\n')[i])
    ensures forall i :: 0 <= i < |r| ==> NoOuterSpace(r[i])
  {
    if content == "" then []
    else
      var lines := Split(content, '\n');
      seq(|lines|, i requires 0 <= i < |lines| => CleanLine(lines[i]))
  }

  /** `update(with:)`: only the content changes. */
  function Update(c: Conversation, newContent: string): (r: Conversation)
    ensures r.content == newContent
    ensures r.id == c.id && r.prompt == c.prompt
  {
    c.(content := newContent)
  }

  // ---------------------------------------------------------------------

  /** Entry `i` is the cleaned `i`-th line: the lines, rejoined, are
      exactly the reply. */
  lemma ContentArrayLines(content: string)
    requires content != ""
    ensures var lines := Split(content, '\n');
      Join(lines, '\n') == content && |ContentArray(content)| == |lines|
      && forall i :: 0 <= i < |lines| ==> '\n' !in lines[i] && ContentArray(content)[i] == CleanLine(lines[i])
  {
    JoinSplit(content, '\n');
  }

  /** A line without numbering is only trimmed. */
  lemma UnnumberedLineOnlyTrimmed(line: string)
    requires !HasNumberPrefix(Trim(line))
    ensures CleanLine(line) == Trim(line)
  {
  }

  /** A one-digit number, a dot and one space in front of text that does
      not start with whitespace are removed, and nothing more. */
  lemma StripOneDigitPrefix(c: char, rest: string)
    requires IsDigit(c) && |rest| > 0 && !IsSpace(rest[0])
    ensures StripNumberPrefix([c, '.', ' '] + rest) == rest
  {
    var line := [c, '.', ' '] + rest;
    assert LeadingDigits(line[1..]) == 0;
    assert LeadingDigits(line) == 1;
    var after := line[2..];
    assert after[0] == ' ' && after[1..] == rest;
    assert TrimStart(rest) == rest;
  }

  /** Only one level of numbering is removed. */
  lemma OnlyOnePrefixRemoved()
    ensures StripNumberPrefix("1. 2. x") == "2. x"
  {
    assert "1. 2. x" == ['1', '.', ' '] + "2. x";
    StripOneDigitPrefix('1', "2. x");
  }

  /** Cleaning a cleaned line that has no numbering left changes nothing. */
  lemma CleanLineStable(line: string)
    requires !HasNumberPrefix(CleanLine(line))
    ensures CleanLine(CleanLine(line)) == CleanLine(line)
  {
    TrimFixed(CleanLine(line));
  }
}
