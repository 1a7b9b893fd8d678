/**
 * The deferred, z-ordered draw compositing shared by Graphics (graphics.h)
 * and its older variant Screen (screen.h): the buffered request, the
 * ordering std::sort establishes with BlitRequest::operator<, and the
 * clear / blit / present calls a flush makes on the rendering backend.
 */
module Compositing {
  import opened Asteroids

  /** BlitRequest: a surface to draw at (x, y), ordered by z. */
  datatype BlitRequest = BlitRequest(surface: Surface, x: int, y: int, z: int)

  /** The request a DRAW_SURFACE message asks for: {surface, x, y, z} copied from it. */
  function RequestOf(m: AsteroidsMessage): (r: BlitRequest)
    ensures r.surface == m.surface && r.x == m.x && r.y == m.y && r.z == m.z
  {
    BlitRequest(m.surface, m.x, m.y, m.z)
  }

  /** BlitRequest::operator<: only z is compared. */
  predicate Less(a: BlitRequest, b: BlitRequest)
  {
    a.z < b.z
  }

  /**
   * What std::sort demands of its comparison: Less is a strict weak order
   * (irreflexive, transitive, and "neither is Less" is transitive too), so
   * the sort is well defined; requests of equal z are incomparable.
   */
  lemma LessIsStrictWeakOrder(a: BlitRequest, b: BlitRequest, c: BlitRequest)
    ensures !Less(a, a)
    ensures Less(a, b) ==> !Less(b, a)
    ensures Less(a, b) && Less(b, c) ==> Less(a, c)
    ensures !Less(a, b) && !Less(b, a) && !Less(b, c) && !Less(c, b) ==> !Less(a, c) && !Less(c, a)
    ensures !Less(a, b) && !Less(b, a) <==> a.z == b.z
  {
  }

  /** No request is Less than the one before it: z never decreases. */
  predicate ZSorted(s: seq<BlitRequest>)
  {
    forall i :: 0 < i < |s| ==> !Less(s[i], s[i - 1])
  }

  /** In a ZSorted sequence no later request is Less than any earlier one, neighbour or not. */
  lemma {:induction false} ZSortedAllPairs(s: seq<BlitRequest>)
    requires ZSorted(s)
    ensures forall i, j :: 0 <= i < j < |s| ==> !Less(s[j], s[i])
  {
    if |s| > 1 {
      ZSortedAllPairs(s[1..]);
      forall j | 1 <= j < |s|
        ensures s[0].z <= s[j].z
      {
        assert s[1..][j - 1] == s[j];
        assert s[1].z <= s[j].z || j == 1;
      }
      forall i, j | 0 <= i < j < |s|
        ensures !Less(s[j], s[i])
      {
        if i > 0 {
          assert s[1..][i - 1] == s[i] && s[1..][j - 1] == s[j];
        }
      }
    }
  }

  /**
   * What std::sort promises: `order` is a permutation of `buffer`, sorted
   * under operator<. Nothing is said about requests of equal z.
   */
  predicate IsZOrdering(buffer: seq<BlitRequest>, order: seq<BlitRequest>)
  {
    multiset(order) == multiset(buffer) && ZSorted(order)
  }

  function Insert(r: BlitRequest, s: seq<BlitRequest>): (t: seq<BlitRequest>)
    requires ZSorted(s)
    ensures multiset(t) == multiset(s) + multiset{r}
    ensures ZSorted(t)
    ensures t != [] && (t[0] == r || (s != [] && t[0] == s[0]))
  {
    if s == [] || r.z <= s[0].z then
      [r] + s
    else
      var rest := Insert(r, s[1..]);
      assert s == [s[0]] + s[1..];
      assert s[0].z <= rest[0].z;
      [s[0]] + rest
  }

  /**
   * One sorting of a buffer, by insertion. It is an IsZOrdering of its input;
   * the model relies on nothing more, so any tie order std::sort picks is
   * covered by what is proved from IsZOrdering alone.
   */
  function ZSort(buffer: seq<BlitRequest>): (order: seq<BlitRequest>)
    ensures IsZOrdering(buffer, order)
  {
    if buffer == [] then []
    else
      assert buffer == [buffer[0]] + buffer[1..];
      Insert(buffer[0], ZSort(buffer[1..]))
  }

  /** A call on the rendering backend (sdl/screen.h): clear, blit a surface at (x, y), present. */
  datatype BackendEvent = Clear | Blit(surface: Surface, x: int, y: int) | Present

  /** The blit that draws one request: at its own x and y. */
  function BlitOf(r: BlitRequest): BackendEvent
  {
    Blit(r.surface, r.x, r.y)
  }

  /** The blits for `order`, one per request, in order. */
  function Blits(order: seq<BlitRequest>): seq<BackendEvent>
  {
    seq(|order|, i requires 0 <= i < |order| => BlitOf(order[i]))
  }

  /** The calls of one non-empty flush drawing `order`: clear, the blits, present. */
  function FlushEvents(order: seq<BlitRequest>): seq<BackendEvent>
  {
    [Clear] + Blits(order) + [Present]
  }

  /** The calls a compositor's end-of-frame update makes: none for an empty buffer. */
  function Composite(buffer: seq<BlitRequest>): (events: seq<BackendEvent>)
    ensures buffer == [] ==> events == []
    ensures buffer != [] ==> IsFlushOf(buffer, events)
    ensures buffer != [] ==> exists order :: IsZOrdering(buffer, order) && events == FlushEvents(order)
  {
    if buffer == [] then []
    else
      BlitsPermutation(buffer, ZSort(buffer));
      FlushEvents(ZSort(buffer))
  }

  /**
   * What any valid flush of a non-empty buffer looks like from the backend:
   * one Clear first, one Present last, and in between exactly one Blit per
   * buffered request, at that request's own x and y.
   */
  predicate IsFlushOf(buffer: seq<BlitRequest>, events: seq<BackendEvent>)
  {
    && |events| == |buffer| + 2
    && events[0] == Clear
    && events[|events| - 1] == Present
    && multiset(events[1..|events| - 1]) == multiset(Blits(buffer))
  }

  /** Blitting two orderings one after the other is blitting their concatenation. */
  lemma BlitsAppend(a: seq<BlitRequest>, b: seq<BlitRequest>)
    ensures Blits(a + b) == Blits(a) + Blits(b)
  {
    assert forall i :: 0 <= i < |a + b| ==> Blits(a + b)[i] == (Blits(a) + Blits(b))[i];
  }

  /** The blits of a prefix grow by one blit per request. */
  lemma BlitsSnoc(order: seq<BlitRequest>, i: nat)
    requires i < |order|
    ensures Blits(order[..i + 1]) == Blits(order[..i]) + [BlitOf(order[i])]
  {
    BlitsAppend(order[..i], [order[i]]);
    assert order[..i + 1] == order[..i] + [order[i]];
  }

  /** Taking request k out of an ordering takes its blit out of the blits. */
  lemma BlitsRemove(order: seq<BlitRequest>, k: nat)
    requires k < |order|
    ensures multiset(Blits(order)) ==
            multiset(Blits(order[..k] + order[k + 1..])) + multiset{BlitOf(order[k])}
  {
    var before, x, after := order[..k], order[k], order[k + 1..];
    assert order == (before + [x]) + after;
    BlitsAppend(before + [x], after);
    BlitsAppend(before, [x]);
    BlitsAppend(before, after);
    assert Blits([x]) == [BlitOf(x)];
    var bb, ba := Blits(before), Blits(after);
    assert Blits(order) == bb + [BlitOf(x)] + ba;
    assert Blits(before + after) == bb + ba;
    assert multiset(bb + [BlitOf(x)] + ba) == multiset(bb) + multiset{BlitOf(x)} + multiset(ba);
  }

  /** Removing one occurrence of the buffer's head from a permutation of it leaves a permutation of its tail. */
  lemma RemoveHead(buffer: seq<BlitRequest>, order: seq<BlitRequest>, k: nat)
    requires multiset(order) == multiset(buffer)
    requires buffer != [] && k < |order| && order[k] == buffer[0]
    ensures multiset(order[..k] + order[k + 1..]) == multiset(buffer[1..])
  {
    var r := buffer[0];
    var rest := order[..k] + order[k + 1..];
    assert order == order[..k] + [r] + order[k + 1..];
    assert buffer == [r] + buffer[1..];
    assert multiset(order) == multiset(order[..k]) + multiset{r} + multiset(order[k + 1..]);
    assert multiset(buffer) == multiset{r} + multiset(buffer[1..]);
    assert multiset(rest) == multiset(order[..k]) + multiset(order[k + 1..]);
    forall x ensures multiset(rest)[x] == multiset(buffer[1..])[x] {
      assert multiset(order)[x] == multiset(buffer)[x];
    }
  }

  /**
   * Blitting a permutation of the buffer draws the same multiset of
   * (surface, x, y) as the buffer: every request exactly once.
   */
  lemma {:induction false} BlitsPermutation(buffer: seq<BlitRequest>, order: seq<BlitRequest>)
    requires multiset(order) == multiset(buffer)
    ensures multiset(Blits(order)) == multiset(Blits(buffer))
    ensures IsFlushOf(buffer, FlushEvents(order))
    decreases |buffer|
  {
    assert |order| == |multiset(order)| == |buffer|;
    if buffer != [] {
      var r := buffer[0];
      assert r in multiset(order);
      var k :| 0 <= k < |order| && order[k] == r;
      RemoveHead(buffer, order, k);
      BlitsPermutation(buffer[1..], order[..k] + order[k + 1..]);
      BlitsRemove(order, k);
      assert buffer == [r] + buffer[1..];
      BlitsAppend([r], buffer[1..]);
    }
    var events := FlushEvents(order);
    assert events[1..|events| - 1] == Blits(order);
  }
}
