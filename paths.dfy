/** Node's `path.join`, as the finder uses it: the non-empty segments joined
    with '/', or "." when every segment is empty. */
module Paths {
  import opened Strings

  const Separator := '/'

  /** The segments that `path.join` keeps, in order. */
  function NonEmpty(segments: seq<string>): (r: seq<string>)
    ensures |r| <= |segments|
    ensures forall i :: 0 <= i < |r| ==> r[i] != ""
    ensures forall s :: s in r <==> s in segments && s != ""
    ensures |segments| == 1 ==> r == if segments[0] == "" then [] else segments
  {
    if segments == [] then []
    else if segments[0] == "" then NonEmpty(segments[1..])
    else [segments[0]] + NonEmpty(segments[1..])
  }

  /** `path.join(...segments)`, leaving out normalisation. */
  function JoinPath(segments: seq<string>): (r: string)
    ensures r != ""
    ensures NonEmpty(segments) == [] ==> r == "."
    ensures NonEmpty(segments) != [] ==> StartsWith(r, NonEmpty(segments)[0])
  {
    var kept := NonEmpty(segments);
    if kept == [] then "." else Join(kept, Separator)
  }

  /** Filtering distributes over concatenation: with the single-segment case
      of `NonEmpty`'s contract, this fixes the kept segments, their order and
      their repetitions. */
  lemma {:induction false} NonEmptyConcat(a: seq<string>, b: seq<string>)
    ensures NonEmpty(a + b) == NonEmpty(a) + NonEmpty(b)
  {
    if a == [] {
      assert a + b == b;
    } else {
      assert (a + b)[0] == a[0] && (a + b)[1..] == a[1..] + b;
      NonEmptyConcat(a[1..], b);
    }
  }

  /** Splitting a joined path at '/' gives back exactly the non-empty
      segments, when no segment holds a '/' of its own. */
  lemma JoinPathSegments(segments: seq<string>)
    requires NonEmpty(segments) != []
    requires forall i :: 0 <= i < |segments| ==> Separator !in segments[i]
    ensures Split(JoinPath(segments), Separator) == NonEmpty(segments)
  {
    var kept := NonEmpty(segments);
    forall i | 0 <= i < |kept| ensures Separator !in kept[i] {
      assert kept[i] in segments;
    }
    SplitJoin(kept, Separator);
  }

  /** A joined path whose last segment is non-empty, and which keeps some
      earlier segment too, ends with a separator and that last segment. */
  lemma JoinPathEndsWithLast(segments: seq<string>)
    requires |segments| >= 1 && segments[|segments| - 1] != ""
    requires NonEmpty(segments[..|segments| - 1]) != []
    ensures EndsWith(JoinPath(segments), [Separator] + segments[|segments| - 1])
  {
    var n := |segments|;
    var last := segments[n - 1];
    assert segments == segments[..n - 1] + [last];
    NonEmptyConcat(segments[..n - 1], [last]);
    assert NonEmpty([last]) == [last];
    JoinEndsWithLast(NonEmpty(segments), Separator);
  }

  /** When no segment is empty, `path.join` is a plain join with '/'. */
  lemma {:induction false} JoinPathOfNonEmpty(segments: seq<string>)
    requires |segments| >= 1
    requires forall i :: 0 <= i < |segments| ==> segments[i] != ""
    ensures JoinPath(segments) == Join(segments, Separator)
  {
    NonEmptyKeepsAll(segments);
  }

  /** Two non-empty segments join with one separator between them. */
  lemma JoinPathPair(a: string, b: string)
    requires a != "" && b != ""
    ensures JoinPath([a, b]) == a + [Separator] + b
  {
    JoinPathOfNonEmpty([a, b]);
    JoinCons(a, [b], Separator);
    assert [a] + [b] == [a, b];
  }

  lemma {:induction false} NonEmptyKeepsAll(segments: seq<string>)
    requires forall i :: 0 <= i < |segments| ==> segments[i] != ""
    ensures NonEmpty(segments) == segments
  {
    if segments != [] {
      NonEmptyKeepsAll(segments[1..]);
      assert [segments[0]] + segments[1..] == segments;
    }
  }
}
