/** Show formats and their segments, and the segment-duration text. A
    segment's `portion` of the show (0.0 to 1.0, a `Double` in the
    source) is kept in hundredths, and durations are whole seconds. */
module Formats {
  import opened Wrappers
  import opened Text
  import Seqs

  datatype Segment = Segment(title: string, hundredths: nat)

  /** The format record the feature reducers use: besides the fields of
      the built-in formats it names the openings a format requires,
      prefers or allows. */
  datatype Format = Format(id: string, title: string, name: string, description: string,
                           segments: seq<Segment>,
                           requiredOpeningId: Option<string>,
                           preferredOpeningId: Option<string>,
                           allowedOpeningIds: Option<seq<string>>)

  /** Swift's integer `/`, which truncates toward zero. */
  function TruncDiv(a: int, b: int): (q: int)
    requires b > 0
    ensures a >= 0 ==> q * b <= a < (q + 1) * b
    ensures a < 0 ==> (q - 1) * b < a <= q * b
  {
    if a >= 0 then a / b else -((-a) / b)
  }

  /** Swift's integer `%`: the remainder takes the sign of `a`. */
  function TruncRem(a: int, b: int): (r: int)
    requires b > 0
    ensures TruncDiv(a, b) * b + r == a
    ensures a >= 0 ==> 0 <= r < b
    ensures a < 0 ==> -b < r <= 0
  {
    a - b * TruncDiv(a, b)
  }

  /** `Int(duration(from:))`: the segment's share of `totalMinutes * 60`
      seconds, truncated to whole seconds. */
  function SegmentSeconds(seg: Segment, totalMinutes: int): (r: int)
    ensures totalMinutes >= 0 ==> 0 <= r && r * 100 <= totalMinutes * 60 * seg.hundredths < (r + 1) * 100
  {
    TruncDiv(totalMinutes * 60 * seg.hundredths, 100)
  }

  /** The `"Xm"` / `"Xm Ys"` text for a number of seconds: it reads back
      as exactly the truncated minutes `s / 60` and remainder `s % 60`,
      and takes the `m` form exactly when the seconds are whole minutes.
      `FormatSecondsDetermined` shows these clauses fix every character. */
  function FormatSeconds(s: int): (r: string)
    ensures |r| > 0
    ensures r[|r| - 1] == 'm' <==> TruncRem(s, 60) == 0
    ensures r[|r| - 1] == 's' <==> TruncRem(s, 60) != 0
    ensures ParseSeconds(r) == Some((TruncDiv(s, 60), TruncRem(s, 60)))
  {
    var minutes := TruncDiv(s, 60);
    var remainder := TruncRem(s, 60);
    if remainder == 0 then
      ParseWholeMinutes(minutes);
      IntToString(minutes) + "m"
    else
      ParseMinutesSeconds(minutes, remainder);
      IntToString(minutes) + "m" + SecondsField(remainder)
  }

  /** The `" Ys"` part of the duration text. */
  function SecondsField(y: int): (r: string)
    ensures |r| >= 3 && r[0] == ' ' && r[|r| - 1] == 's'
  {
    " " + IntToString(y) + "s"
  }

  /** Reads back the text after the `m`: nothing is 0 seconds, `" Ys"`
      is Y seconds. */
  function ParseSecondsField(rest: string): Option<int> {
    if rest == "" then Some(0)
    else if |rest| >= 2 && rest[0] == ' ' && rest[|rest| - 1] == 's' then ParseInt(rest[1..|rest| - 1])
    else None
  }

  /** Reads back a `"Xm"` or `"Xm Ys"` text as its minutes and seconds
      fields, a missing seconds field reading as 0. */
  function ParseSeconds(t: string): Option<(int, int)> {
    var k := Seqs.FirstIndex(IsM, t);
    if k.None? then None
    else
      var i := k.value;
      match (ParseInt(t[..i]), ParseSecondsField(t[i + 1..]))
      case (Some(m), Some(y)) => Some((m, y))
      case _ => None
  }

  /** Integer renderings contain no `m`. */
  lemma NoMInInt(n: int)
    ensures forall i :: 0 <= i < |IntToString(n)| ==> IntToString(n)[i] != 'm'
  {
    var d := NatToString(if n < 0 then -n else n);
    assert forall i :: 0 <= i < |d| ==> IsDigit(d[i]);
  }

  predicate IsM(c: char) {
    c == 'm'
  }

  /** The first `m` of a rendered integer followed by `m` is that `m`. */
  lemma FirstMAfterInt(m: int, rest: string)
    ensures var t := IntToString(m) + "m" + rest;
      Seqs.FirstIndex(IsM, t) == Some(|IntToString(m)|) && t[..|IntToString(m)|] == IntToString(m)
      && t[|IntToString(m)| + 1..] == rest
  {
    var ms := IntToString(m);
    var t := ms + "m" + rest;
    NoMInInt(m);
    assert t[..|ms|] == ms;
    assert t[|ms|] == 'm';
    assert forall j :: 0 <= j < |ms| ==> !IsM(t[j]);
    Seqs.FirstIndexAt(IsM, t, |ms|);
  }

  /** A rendered minute count, `m` and a readable seconds field read back
      as that count and those seconds. */
  lemma ParseAfterMinutes(m: int, rest: string, y: int)
    requires ParseSecondsField(rest) == Some(y)
    ensures ParseSeconds(IntToString(m) + "m" + rest) == Some((m, y))
  {
    FirstMAfterInt(m, rest);
    ParseIntToString(m);
  }

  /** `"Xm"` reads back as X minutes and no seconds. */
  lemma ParseWholeMinutes(m: int)
    ensures ParseSeconds(IntToString(m) + "m") == Some((m, 0))
  {
    ParseAfterMinutes(m, "", 0);
    assert IntToString(m) + "m" + "" == IntToString(m) + "m";
  }

  /** `" Ys"` reads back as Y seconds. */
  lemma ParseSecondsFieldOf(y: int)
    ensures ParseSecondsField(SecondsField(y)) == Some(y)
  {
    var rest := SecondsField(y);
    assert rest[1..|rest| - 1] == IntToString(y);
    ParseIntToString(y);
  }

  /** `"Xm Ys"` reads back as X minutes and Y seconds. */
  lemma ParseMinutesSeconds(m: int, y: int)
    ensures ParseSeconds(IntToString(m) + "m" + SecondsField(y)) == Some((m, y))
  {
    ParseSecondsFieldOf(y);
    ParseAfterMinutes(m, SecondsField(y), y);
  }

  /** Only the canonical seconds field reads back: nothing, or `" Ys"`
      with Y written by `IntToString`. */
  lemma ParseSecondsFieldCanonical(rest: string, y: int)
    requires ParseSecondsField(rest) == Some(y)
    ensures rest == "" || rest == SecondsField(y)
  {
    if rest != "" {
      var mid := rest[1..|rest| - 1];
      assert ParseInt(mid) == Some(y);
      SplitEnclosed(rest);
    }
  }

  /** A string opening with a space and closing with `s` is the space,
      the middle and the `s`. */
  lemma SplitEnclosed(rest: string)
    requires |rest| >= 2 && rest[0] == ' ' && rest[|rest| - 1] == 's'
    ensures rest == " " + rest[1..|rest| - 1] + "s"
  {
    assert rest == [rest[0]] + rest[1..|rest| - 1] + [rest[|rest| - 1]];
  }

  /** Only the canonical texts read back: a text that parses as
      (m, y) is `"Xm"` or `"Xm Ys"` with X and Y written by
      `IntToString`, so no leading zeros and no `-0`. */
  lemma ParseSecondsCanonical(t: string, m: int, y: int)
    requires ParseSeconds(t) == Some((m, y))
    ensures t == IntToString(m) + "m" || t == IntToString(m) + "m" + SecondsField(y)
  {
    var k := Seqs.FirstIndex(IsM, t);
    var i := k.value;
    var head, rest := t[..i], t[i + 1..];
    assert ParseInt(head) == Some(m) && ParseSecondsField(rest) == Some(y);
    ParseSecondsFieldCanonical(rest, y);
    SplitAround(t, i);
  }

  /** A string is the part before an `m`, the `m`, and the part after. */
  lemma SplitAround(t: string, i: nat)
    requires i < |t| && t[i] == 'm'
    ensures t == t[..i] + "m" + t[i + 1..]
  {
    assert t[..i] + "m" + t[i + 1..] == t[..i] + t[i..];
  }

  /** The contract of `FormatSeconds` fixes its text: a text that reads
      back as the truncated minutes and remainder of `s`, and ends in `m`
      exactly when the remainder is 0, is `FormatSeconds(s)`. */
  lemma FormatSecondsDetermined(s: int, t: string)
    requires ParseSeconds(t) == Some((TruncDiv(s, 60), TruncRem(s, 60)))
    requires |t| > 0 && (t[|t| - 1] == 'm' <==> TruncRem(s, 60) == 0)
    ensures t == FormatSeconds(s)
  {
    var m, y := TruncDiv(s, 60), TruncRem(s, 60);
    ParseSecondsCanonical(t, m, y);
    var f := SecondsField(y);
    if t == IntToString(m) + "m" + f {
      assert t[|t| - 1] == f[|f| - 1] == 's';
    }
  }

  /** 125 seconds read `"2m 5s"`. */
  lemma FormatSecondsMinutesAndSeconds()
    ensures FormatSeconds(125) == "2m 5s"
  {
    assert TruncDiv(125, 60) == 2 && TruncRem(125, 60) == 5;
    assert IntToString(2) == "2" && IntToString(5) == "5";
  }

  /** Whole minutes drop the seconds: 120 seconds read `"2m"`. */
  lemma FormatSecondsWholeMinutes()
    ensures FormatSeconds(120) == "2m"
  {
    assert TruncDiv(120, 60) == 2 && TruncRem(120, 60) == 0;
    assert IntToString(2) == "2";
  }

  /** Swift's `/` and `%` truncate toward zero, so a negative count takes
      the sign on both fields: -65 seconds read `"-1m -5s"`. */
  lemma FormatSecondsNegative()
    ensures FormatSeconds(-65) == "-1m -5s"
  {
    assert TruncDiv(-65, 60) == -1 && TruncRem(-65, 60) == -5;
    assert IntToString(-1) == "-1" && IntToString(-5) == "-5";
  }

  /** Different numbers of seconds give different texts. */
  lemma FormatSecondsInjective(a: int, b: int)
    requires FormatSeconds(a) == FormatSeconds(b)
    ensures a == b
  {
  }

  /** `FormatSegment.stringDuration(_:)`: the segment's whole seconds
      shown as truncated minutes and the remaining seconds. */
  function StringDuration(seg: Segment, totalMinutes: int): (r: string)
    ensures var secs := SegmentSeconds(seg, totalMinutes);
      ParseSeconds(r) == Some((TruncDiv(secs, 60), TruncRem(secs, 60)))
    ensures totalMinutes >= 0 ==> ParseSeconds(r).Some? && 0 <= ParseSeconds(r).value.1 < 60
    ensures |r| > 0 && (r[|r| - 1] == 'm' <==> TruncRem(SegmentSeconds(seg, totalMinutes), 60) == 0)
  {
    FormatSeconds(SegmentSeconds(seg, totalMinutes))
  }

  /** Total of the segments' portions, in hundredths. */
  function TotalHundredths(segs: seq<Segment>): nat {
    if |segs| == 0 then 0 else segs[0].hundredths + TotalHundredths(segs[1..])
  }

  /** Total of the segments' whole-second durations. */
  function TotalSeconds(segs: seq<Segment>, totalMinutes: int): int {
    if |segs| == 0 then 0 else SegmentSeconds(segs[0], totalMinutes) + TotalSeconds(segs[1..], totalMinutes)
  }

  /** Truncating every segment never adds time: the segments together
      last at most their share of the show. */
  lemma {:induction false} TotalSecondsBound(segs: seq<Segment>, totalMinutes: int)
    requires totalMinutes >= 0
    ensures TotalSeconds(segs, totalMinutes) * 100 <= totalMinutes * 60 * TotalHundredths(segs)
  {
    if |segs| > 0 {
      TotalSecondsBound(segs[1..], totalMinutes);
      var h := segs[0].hundredths;
      var rest := TotalHundredths(segs[1..]);
      assert totalMinutes * 60 * (h + rest) == totalMinutes * 60 * h + totalMinutes * 60 * rest;
    }
  }

  /** The built-in formats. */
  datatype FormatType = Harold | Montage {

    function Title(): string {
      match this
      case Harold => "Harold"
      case Montage => "Montage"
    }

    /** `id` is the title. */
    function Id(): (r: string)
      ensures r == Title()
    {
      Title()
    }

    function Name(): string {
      match this
      case Harold => "Harold"
      case Montage => "Montage"
    }

    /** The listed segments: each a positive share, together the whole
        show. */
    function Segments(): (r: seq<Segment>)
      ensures forall i :: 0 <= i < |r| ==> r[i].hundredths > 0
      ensures TotalHundredths(r) == 100
    {
      match this
      case Harold => [Segment("Intro", 8), Segment("Beat 1", 24), Segment("Group Game 1", 8),
                      Segment("Beat 2", 24), Segment("Group Game 2", 8), Segment("Beat 3 / Wrap-Up", 28)]
      case Montage => [Segment("Opening", 30), Segment("Heightening", 40), Segment("Tag Run", 20),
                       Segment("Wrap-Up", 10)]
    }
  }

  /** The segments' titles, in order. */
  function Titles(segs: seq<Segment>): (r: seq<string>)
    ensures |r| == |segs| && forall i :: 0 <= i < |segs| ==> r[i] == segs[i].title
  {
    seq(|segs|, i requires 0 <= i < |segs| => segs[i].title)
  }

  /** The segments' portions in hundredths, in order. */
  function Portions(segs: seq<Segment>): (r: seq<nat>)
    ensures |r| == |segs| && forall i :: 0 <= i < |segs| ==> r[i] == segs[i].hundredths
  {
    seq(|segs|, i requires 0 <= i < |segs| => segs[i].hundredths)
  }

  /** The built-in formats have distinct ids and titles, the listed
      segment titles and portions in the listed order, and portions
      adding up to the whole show. */
  lemma BuiltInFormats()
    ensures Harold.Id() == "Harold" && Montage.Id() == "Montage" && Harold.Id() != Montage.Id()
    ensures Titles(Harold.Segments()) == ["Intro", "Beat 1", "Group Game 1", "Beat 2", "Group Game 2", "Beat 3 / Wrap-Up"]
    ensures Portions(Harold.Segments()) == [8, 24, 8, 24, 8, 28]
    ensures Titles(Montage.Segments()) == ["Opening", "Heightening", "Tag Run", "Wrap-Up"]
    ensures Portions(Montage.Segments()) == [30, 40, 20, 10]
    ensures TotalHundredths(Harold.Segments()) == 100 && TotalHundredths(Montage.Segments()) == 100
  {
    assert Harold.Id()[0] != Montage.Id()[0];
  }

  /** A built-in format's segments never outlast the show. */
  lemma BuiltInSegmentsFit(f: FormatType, totalMinutes: int)
    requires totalMinutes >= 0
    ensures TotalSeconds(f.Segments(), totalMinutes) <= totalMinutes * 60
  {
    BuiltInFormats();
    TotalSecondsBound(f.Segments(), totalMinutes);
  }
}
