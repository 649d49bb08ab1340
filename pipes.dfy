/** The pipe-delimited identifier lists the facades send: Python's `sep.join(xs)`,
    its inverse `s.split(sep)`, and the `str | list[str]` argument that is joined
    when it is a list and passed through when it is a string. */
module Pipes {

  const Pipe: char := '|'

  /** Python's `sep.join(xs)` with a one-character separator. */
  function Join(sep: char, xs: seq<string>): (r: string)
    ensures |xs| == 0 ==> r == ""
    ensures |xs| == 1 ==> r == xs[0]
    ensures sep in r <==> |xs| > 1 || exists i :: 0 <= i < |xs| && sep in xs[i]
  {
    if |xs| == 0 then ""
    else if |xs| == 1 then xs[0]
    else
      var tail := Join(sep, xs[1..]);
      assert forall i :: 1 <= i < |xs| ==> xs[i] == xs[1..][i - 1];
      xs[0] + [sep] + tail
  }

  /** Python's `s.split(sep)`: the pieces between separators, always at least one. */
  function Split(sep: char, s: string): (r: seq<string>)
    ensures |r| >= 1
    ensures forall i :: 0 <= i < |r| ==> sep !in r[i]
  {
    if s == [] then [""]
    else
      var rest := Split(sep, s[1..]);
      if s[0] == sep then [""] + rest
      else [[s[0]] + rest[0]] + rest[1..]
  }

  /** A string without separator splits into itself alone. */
  lemma {:induction false} SplitWithoutSep(sep: char, x: string)
    requires sep !in x
    ensures Split(sep, x) == [x]
  {
    if x != [] {
      SplitWithoutSep(sep, x[1..]);
      assert x == [x[0]] + x[1..];
    }
  }

  /** A separator-free piece followed by a separator splits off as the first piece. */
  lemma {:induction false} SplitFirstPiece(sep: char, x: string, rest: string)
    requires sep !in x
    ensures Split(sep, x + [sep] + rest) == [x] + Split(sep, rest)
  {
    if x != [] {
      assert (x + [sep] + rest)[1..] == x[1..] + [sep] + rest;
      SplitFirstPiece(sep, x[1..], rest);
      assert x == [x[0]] + x[1..];
    } else {
      assert (x + [sep] + rest)[1..] == rest;
    }
  }

  /** Splitting a joined non-empty list whose elements hold no separator recovers
      the list, in order. */
  lemma {:induction false} SplitJoin(sep: char, xs: seq<string>)
    requires |xs| >= 1
    requires forall i :: 0 <= i < |xs| ==> sep !in xs[i]
    ensures Split(sep, Join(sep, xs)) == xs
  {
    if |xs| == 1 {
      SplitWithoutSep(sep, xs[0]);
    } else {
      SplitFirstPiece(sep, xs[0], Join(sep, xs[1..]));
      SplitJoin(sep, xs[1..]);
      assert [xs[0]] + xs[1..] == xs;
    }
  }

  /** Joining the pieces of any string with the separator gives the string back. */
  lemma {:induction false} JoinSplit(sep: char, s: string)
    ensures Join(sep, Split(sep, s)) == s
  {
    if s != [] {
      var rest := Split(sep, s[1..]);
      JoinSplit(sep, s[1..]);
      if s[0] == sep {
        assert ([""] + rest)[1..] == rest;
        assert s == [sep] + s[1..];
      } else if |rest| == 1 {
        assert s == [s[0]] + s[1..];
      } else {
        var pieces := [[s[0]] + rest[0]] + rest[1..];
        assert pieces[1..] == rest[1..];
        assert Join(sep, rest) == rest[0] + [sep] + Join(sep, rest[1..]);
        assert s == [s[0]] + s[1..];
      }
    }
  }

  /** An argument typed `str | list[str]`. */
  datatype StrOrList = Joined(s: string) | Items(items: seq<string>)

  /** `"|".join(ids) if isinstance(ids, list) else ids`. */
  function PipeJoined(ids: StrOrList): (r: string)
    ensures ids.Joined? ==> r == ids.s
    ensures ids.Items? ==> r == Join(Pipe, ids.items)
    ensures ids.Items? && |ids.items| == 0 ==> r == ""
    ensures ids.Items? && |ids.items| == 1 ==> r == ids.items[0]
    ensures ids.Items? && |ids.items| >= 1 && (forall i :: 0 <= i < |ids.items| ==> Pipe !in ids.items[i])
            ==> Split(Pipe, r) == ids.items
  {
    match ids
    case Joined(s) => s
    case Items(xs) =>
      if |xs| >= 1 && forall i :: 0 <= i < |xs| ==> Pipe !in xs[i] then
        SplitJoin(Pipe, xs);
        Join(Pipe, xs)
      else
        Join(Pipe, xs)
  }

  /** Passing a string or the list of its pipe-separated pieces gives the same text. */
  lemma StringAndItsPiecesAgree(s: string)
    ensures PipeJoined(Items(Split(Pipe, s))) == PipeJoined(Joined(s))
  {
    JoinSplit(Pipe, s);
  }
}
