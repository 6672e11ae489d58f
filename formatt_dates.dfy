/** `formattDate`: rewrites an ISO date `YYYY-MM-DD[Trest]` as `DD-MM-YYYY[Trest]`. */
module Dates {
  import opened Text

  /** `date[k]` inside a template literal: a missing piece prints as "undefined". */
  function PieceOrUndefined(pieces: seq<string>, k: nat): string {
    if k < |pieces| then pieces[k] else "undefined"
  }

  /** The value before its first 'T', or all of it when it has none. */
  function DatePart(value: string): string {
    var t := IndexOf(value, 'T');
    if t >= 0 then value[..t] else value
  }

  /** The value from its first 'T' on, or "" when it has none. */
  function TimePart(value: string): string {
    var t := IndexOf(value, 'T');
    if t >= 0 then value[t..] else ""
  }

  /** `formattDate(value)`: the '-'-pieces of the date part in reverse order, then the time part. */
  function FormatDate(value: string): string {
    var date := Split(DatePart(value), '-');
    PieceOrUndefined(date, 2) + "-" + PieceOrUndefined(date, 1) + "-" + PieceOrUndefined(date, 0)
      + TimePart(value)
  }

  /** The value has a time part iff it contains 'T'; the cut is at the first 'T', so the date part
      holds no 'T' and the two parts put together give the value back. */
  lemma SplitAtFirstT(value: string)
    ensures DatePart(value) + TimePart(value) == value
    ensures 'T' !in DatePart(value)
    ensures TimePart(value) != "" <==> 'T' in value
    ensures TimePart(value) != "" ==> TimePart(value)[0] == 'T'
  {
  }

  /** The time part, from the first 'T' on, is copied verbatim to the end of the output. */
  lemma TimePartCopied(value: string)
    ensures var r := FormatDate(value);
            |TimePart(value)| <= |r| && r[|r| - |TimePart(value)|..] == TimePart(value)
  {
  }

  /** `a-b-c` followed by nothing or by a part starting with 'T' becomes `c-b-a` followed by the same part. */
  lemma {:induction false} ThreePiecesReversed(a: string, b: string, c: string, rest: string)
    requires '-' !in a && '-' !in b && '-' !in c
    requires 'T' !in a && 'T' !in b && 'T' !in c
    requires rest == "" || rest[0] == 'T'
    ensures FormatDate(a + "-" + b + "-" + c + rest) == c + "-" + b + "-" + a + rest
  {
    var date := a + "-" + b + "-" + c;
    assert Join([a, b, c], '-') == date by {
      assert Join([c], '-') == c;
      assert Join([b, c], '-') == b + "-" + c;
    }
    SplitJoin([a, b, c], '-');
    forall k | 0 <= k < |date| ensures date[k] != 'T' {
      if k < |a| {
        assert date[k] == a[k];
      } else if |a| < k < |a| + 1 + |b| {
        assert date[k] == b[k - |a| - 1];
      } else if |a| + 1 + |b| < k {
        assert date[k] == c[k - |a| - |b| - 2];
      }
    }
    CutBeforeRest(date, rest);
  }

  /** A 'T'-free date followed by nothing or by a part starting with 'T' is cut between the two. */
  lemma CutBeforeRest(date: string, rest: string)
    requires forall k :: 0 <= k < |date| ==> date[k] != 'T'
    requires rest == "" || rest[0] == 'T'
    ensures DatePart(date + rest) == date && TimePart(date + rest) == rest
  {
    var value := date + rest;
    if rest == "" {
      assert value == date;
      assert 'T' !in value;
    } else {
      assert forall k :: 0 <= k < |date| ==> value[k] == date[k];
      IndexOfIs(value, 'T', |date|);
      assert value[..|date|] == date && value[|date|..] == rest;
    }
  }

  /** Joining three pieces with '-' puts a '-' between each pair. */
  lemma JoinThree(pieces: seq<string>)
    requires |pieces| == 3
    ensures Join(pieces, '-') == pieces[0] + "-" + pieces[1] + "-" + pieces[2]
  {
    var tail := pieces[1..];
    assert tail[1..] == [pieces[2]];
    assert Join(tail[1..], '-') == pieces[2];
    assert Join(tail, '-') == pieces[1] + "-" + pieces[2];
  }

  /** A character absent from a joined string is absent from each of its pieces. */
  lemma AbsentFromPieces(a: string, b: string, c: string, x: char)
    requires x !in a + "-" + b + "-" + c
    ensures x !in a && x !in b && x !in c
  {
    var d := a + "-" + b + "-" + c;
    forall k | 0 <= k < |a| ensures a[k] != x { assert a[k] == d[k]; }
    forall k | 0 <= k < |b| ensures b[k] != x { assert b[k] == d[|a| + 1 + k]; }
    forall k | 0 <= k < |c| ensures c[k] != x { assert c[k] == d[|a| + |b| + 2 + k]; }
  }

  /** For a date part of exactly three pieces the output has the input's length, and formatting
      twice gives the input back. */
  lemma {:induction false} FormatDateInvolution(value: string)
    requires |Split(DatePart(value), '-')| == 3
    ensures |FormatDate(value)| == |value|
    ensures FormatDate(FormatDate(value)) == value
  {
    SplitAtFirstT(value);
    var date := DatePart(value);
    var rest := TimePart(value);
    var pieces := Split(date, '-');
    var a, b, c := pieces[0], pieces[1], pieces[2];
    SplitRejoins(date, '-');
    SplitPiecesAreClean(date, '-');
    assert '-' !in a && '-' !in b && '-' !in c;
    JoinThree(pieces);
    assert date == a + "-" + b + "-" + c;
    AbsentFromPieces(a, b, c, 'T');
    assert value == a + "-" + b + "-" + c + rest;
    ThreePiecesReversed(a, b, c, rest);
    ThreePiecesReversed(c, b, a, rest);
  }
}
