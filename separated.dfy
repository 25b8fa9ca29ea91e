/** Comma-separated text: the layout ProductDailyPnL.toString produces,
    with its inverse, splitting at commas. */
module Separated {

  const Comma: char := ','

  /** The fields joined with exactly one comma between consecutive fields
      and none before the first or after the last. */
  function Join(fields: seq<string>): string
  {
    if |fields| == 0 then ""
    else if |fields| == 1 then fields[0]
    else fields[0] + [Comma] + Join(fields[1..])
  }

  /** The text cut at every comma: the pieces between commas, in order. */
  function Split(s: string): (pieces: seq<string>)
    ensures |pieces| >= 1
  {
    if |s| == 0 then [""]
    else
      var rest := Split(s[1..]);
      if s[0] == Comma then [""] + rest
      else [[s[0]] + rest[0]] + rest[1..]
  }

  /** The number of commas in `s`. */
  function CommaCount(s: string): nat
  {
    multiset(s)[Comma]
  }

  predicate CommaFree(fields: seq<string>)
  {
    forall i :: 0 <= i < |fields| ==> Comma !in fields[i]
  }

  /** Appending a field to the join adds a comma and the field, except to the
      empty join: the step toString's loop takes. */
  lemma {:induction false} JoinSnoc(fields: seq<string>, last: string)
    ensures Join(fields + [last]) == if fields == [] then last else Join(fields) + [Comma] + last
  {
    if |fields| > 1 {
      assert (fields + [last])[1..] == fields[1..] + [last];
      JoinSnoc(fields[1..], last);
    } else if |fields| == 1 {
      assert fields + [last] == [fields[0], last];
    }
  }

  /** Comma-free fields take one comma fewer than there are fields. */
  lemma {:induction false} JoinCommaCount(fields: seq<string>)
    requires |fields| >= 1 && CommaFree(fields)
    ensures CommaCount(Join(fields)) == |fields| - 1
  {
    assert Comma !in multiset(fields[0]);
    if |fields| > 1 {
      JoinCommaCount(fields[1..]);
      assert multiset(Join(fields)) == multiset(fields[0]) + multiset([Comma]) + multiset(Join(fields[1..]));
    }
  }

  /** Splitting a comma-free piece followed by a comma and more text. */
  lemma {:induction false} SplitAfterPiece(piece: string, tail: string)
    requires Comma !in piece
    ensures Split(piece + [Comma] + tail) == [piece] + Split(tail)
  {
    if |piece| == 0 {
      assert piece + [Comma] + tail == [Comma] + tail;
      assert ([Comma] + tail)[1..] == tail;
    } else {
      var s := piece + [Comma] + tail;
      assert s[1..] == piece[1..] + [Comma] + tail;
      SplitAfterPiece(piece[1..], tail);
      assert [s[0]] + piece[1..] == piece;
    }
  }

  /** A comma-free piece splits into itself. */
  lemma {:induction false} SplitPiece(piece: string)
    requires Comma !in piece
    ensures Split(piece) == [piece]
  {
    if |piece| > 0 {
      SplitPiece(piece[1..]);
      assert [piece[0]] + piece[1..] == piece;
    }
  }

  /** Splitting undoes joining, provided no field holds a comma. */
  lemma {:induction false} SplitJoin(fields: seq<string>)
    requires |fields| >= 1 && CommaFree(fields)
    ensures Split(Join(fields)) == fields
  {
    if |fields| == 1 {
      SplitPiece(fields[0]);
    } else {
      SplitAfterPiece(fields[0], Join(fields[1..]));
      SplitJoin(fields[1..]);
    }
  }

  /** Joining undoes splitting, for any text. */
  lemma {:induction false} JoinSplit(s: string)
    ensures Join(Split(s)) == s
  {
    if |s| > 0 {
      var rest := Split(s[1..]);
      JoinSplit(s[1..]);
      if s[0] == Comma {
        assert s == [Comma] + s[1..];
      } else {
        var pieces := [[s[0]] + rest[0]] + rest[1..];
        assert pieces[1..] == rest[1..];
        if |rest| > 1 {
          assert Join(rest) == rest[0] + [Comma] + Join(rest[1..]);
        }
        assert s == [s[0]] + s[1..];
      }
    }
  }
}
