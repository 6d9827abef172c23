/**
 * `sfx list`: the aliases in ascending order, cut into chunks of ten, each
 * chunk on its own line inside a code block.
 */
module SfxList {
  import opened Text

  /**
   * The order `localeCompare` puts aliases in, taken as the character-by-character
   * order with a proper prefix first.
   */
  predicate Before(a: string, b: string) {
    if |a| == 0 then |b| > 0
    else if |b| == 0 then false
    else if a[0] != b[0] then a[0] < b[0]
    else Before(a[1..], b[1..])
  }

  lemma {:induction false} BeforeIrreflexive(a: string)
    ensures !Before(a, a)
    decreases |a|
  {
    if |a| > 0 {
      BeforeIrreflexive(a[1..]);
    }
  }

  lemma {:induction false} BeforeTotal(a: string, b: string)
    ensures a == b || Before(a, b) || Before(b, a)
    decreases |a|
  {
    if |a| > 0 && |b| > 0 && a[0] == b[0] {
      BeforeTotal(a[1..], b[1..]);
      if a[1..] == b[1..] {
        assert a == [a[0]] + a[1..] && b == [b[0]] + b[1..];
      }
    }
  }

  lemma {:induction false} BeforeTransitive(a: string, b: string, c: string)
    requires Before(a, b) && Before(b, c)
    ensures Before(a, c)
    decreases |a|
  {
    if |a| > 0 && a[0] == b[0] && b[0] == c[0] {
      BeforeTransitive(a[1..], b[1..], c[1..]);
    }
  }

  /** Not after: `a` sorts before `b` or is `b`. */
  predicate NotAfter(a: string, b: string) {
    !Before(b, a)
  }

  predicate Sorted(xs: seq<string>) {
    forall i, j :: 0 <= i < j < |xs| ==> NotAfter(xs[i], xs[j])
  }

  /** Places `x` in front of the first element it does not come after. */
  function Insert(x: string, xs: seq<string>): (r: seq<string>)
    ensures multiset(r) == multiset(xs) + multiset{x}
    ensures |r| == |xs| + 1
  {
    if xs == [] || NotAfter(x, xs[0]) then [x] + xs
    else
      assert xs == [xs[0]] + xs[1..];
      [xs[0]] + Insert(x, xs[1..])
  }

  /** The aliases in ascending order, as `Array.prototype.sort` with the comparison above leaves them. */
  function SortAliases(xs: seq<string>): (r: seq<string>)
    ensures multiset(r) == multiset(xs)
  {
    if xs == [] then []
    else
      assert xs == [xs[0]] + xs[1..];
      Insert(xs[0], SortAliases(xs[1..]))
  }

  lemma {:induction false} InsertSorted(x: string, xs: seq<string>)
    requires Sorted(xs)
    ensures Sorted(Insert(x, xs))
    decreases |xs|
  {
    var r := Insert(x, xs);
    if xs == [] || NotAfter(x, xs[0]) {
      forall j | 1 <= j < |r| ensures NotAfter(r[0], r[j]) {
        assert r[j] == xs[j - 1];
        if j > 1 {
          assert NotAfter(xs[0], xs[j - 1]);
          if Before(xs[j - 1], x) {
            BeforeTotal(x, xs[0]);
            if x != xs[0] {
              BeforeTransitive(xs[j - 1], x, xs[0]);
            }
          }
        }
      }
    } else {
      BeforeTotal(x, xs[0]);
      assert Before(xs[0], x);
      InsertSorted(x, xs[1..]);
      var tail := Insert(x, xs[1..]);
      assert r == [xs[0]] + tail;
      forall j | 0 <= j < |tail| ensures NotAfter(xs[0], tail[j]) {
        assert tail[j] in multiset(tail);
        assert tail[j] == x || tail[j] in multiset(xs[1..]);
        if tail[j] != x {
          var k :| 0 <= k < |xs[1..]| && xs[1..][k] == tail[j];
          assert xs[k + 1] == tail[j];
        } else {
          BeforeIrreflexive(xs[0]);
          if Before(x, xs[0]) {
            BeforeTransitive(x, xs[0], x);
            BeforeIrreflexive(x);
          }
        }
      }
    }
  }

  /** The listing is in ascending order and holds every alias as often as the map does. */
  lemma {:induction false} SortAliasesSorted(xs: seq<string>)
    ensures Sorted(SortAliases(xs)) && multiset(SortAliases(xs)) == multiset(xs)
    decreases |xs|
  {
    if xs != [] {
      SortAliasesSorted(xs[1..]);
      InsertSorted(xs[0], SortAliases(xs[1..]));
    }
  }

  // ---------------------------------------------------------------------------
  // chunking and rendering

  const LIST_CHUNK_SIZE := 10

  /** `aliases.slice(i, i + 10)` for i = 0, 10, 20, ... */
  function Chunks(xs: seq<string>): seq<seq<string>>
    decreases |xs|
  {
    if xs == [] then []
    else if |xs| <= LIST_CHUNK_SIZE then [xs]
    else [xs[..LIST_CHUNK_SIZE]] + Chunks(xs[LIST_CHUNK_SIZE..])
  }

  function Flatten(chunks: seq<seq<string>>): seq<string> {
    if chunks == [] then [] else chunks[0] + Flatten(chunks[1..])
  }

  /**
   * The chunks put back together are the aliases, nothing lost or repeated;
   * each chunk holds one to ten aliases and every chunk but the last holds ten.
   */
  lemma {:induction false} ChunksSpec(xs: seq<string>)
    ensures Flatten(Chunks(xs)) == xs
    ensures forall k :: 0 <= k < |Chunks(xs)| ==> 1 <= |Chunks(xs)[k]| <= LIST_CHUNK_SIZE
    ensures forall k :: 0 <= k < |Chunks(xs)| - 1 ==> |Chunks(xs)[k]| == LIST_CHUNK_SIZE
    ensures |Chunks(xs)| == (|xs| + LIST_CHUNK_SIZE - 1) / LIST_CHUNK_SIZE
    decreases |xs|
  {
    if |xs| > LIST_CHUNK_SIZE {
      var rest := xs[LIST_CHUNK_SIZE..];
      ChunksSpec(rest);
      assert Chunks(xs) == [xs[..LIST_CHUNK_SIZE]] + Chunks(rest);
      assert Chunks(xs)[1..] == Chunks(rest);
      assert xs == xs[..LIST_CHUNK_SIZE] + rest;
    } else if xs != [] {
      assert Flatten([xs]) == xs + Flatten([]);
    }
  }

  /** The `for` loop that cuts the sorted aliases into chunks. */
  method ChunkAliases(aliases: seq<string>) returns (chunked: seq<seq<string>>)
    ensures chunked == Chunks(aliases)
  {
    chunked := [];
    var i := 0;
    while i < |aliases|
      invariant 0 <= i && (i < |aliases| ==> i % LIST_CHUNK_SIZE == 0)
      invariant i >= |aliases| ==> chunked == Chunks(aliases)
      invariant i < |aliases| ==> chunked + Chunks(aliases[i..]) == Chunks(aliases)
      decreases |aliases| - i
    {
      var end := if i + LIST_CHUNK_SIZE <= |aliases| then i + LIST_CHUNK_SIZE else |aliases|;
      assert Chunks(aliases[i..]) == [aliases[i..end]] + Chunks(aliases[end..]) by {
        if |aliases[i..]| > LIST_CHUNK_SIZE {
          assert aliases[i..][..LIST_CHUNK_SIZE] == aliases[i..end];
          assert aliases[i..][LIST_CHUNK_SIZE..] == aliases[end..];
        } else {
          assert aliases[i..] == aliases[i..end];
          assert aliases[end..] == [];
        }
      }
      chunked := chunked + [aliases[i..end]];
      i := i + LIST_CHUNK_SIZE;
    }
  }

  function MapJoin(chunks: seq<seq<string>>, sep: string): (r: seq<string>)
    ensures |r| == |chunks|
    ensures forall k :: 0 <= k < |r| ==> r[k] == Join(chunks[k], sep)
  {
    seq(|chunks|, k requires 0 <= k < |chunks| => Join(chunks[k], sep))
  }

  /** The reply: a code block with one line per chunk, aliases separated by ` | `. */
  function ListReply(chunks: seq<seq<string>>): string {
    "```\n" + Join(MapJoin(chunks, " | "), "\n") + "\n```"
  }

  /** `sfxList`: `aliases` are the sounds map's keys in any enumeration order. */
  method SfxList(aliases: seq<string>) returns (reply: string)
    ensures reply == ListReply(Chunks(SortAliases(aliases)))
  {
    var sorted := SortAliases(aliases);
    var chunked := ChunkAliases(sorted);
    reply := ListReply(chunked);
  }

  /** With no sounds the reply is an empty code block. */
  lemma ListEmpty()
    ensures ListReply(Chunks(SortAliases([]))) == "```\n\n```"
  {
  }

  /** Eleven aliases make one full line of ten and a line with the eleventh. */
  lemma ListTwoLines(xs: seq<string>)
    requires |xs| == 11
    ensures Chunks(xs) == [xs[..10], xs[10..]]
    ensures ListReply(Chunks(xs)) == "```\n" + Join(xs[..10], " | ") + "\n" + Join(xs[10..], " | ") + "\n```"
  {
    assert Chunks(xs[10..]) == [xs[10..]];
    var lines := MapJoin(Chunks(xs), " | ");
    assert lines == [Join(xs[..10], " | "), Join(xs[10..], " | ")];
    assert Join(lines, "\n") == Join(xs[..10], " | ") + "\n" + Join(xs[10..], " | ");
  }
}
