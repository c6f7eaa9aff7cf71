/** A directory handle's buffer (`fuse.rs`): what a fetch brought and the kernel did not take is kept for its next request.
    Paging through it is proved to list what the server would, whatever the offsets, the room in the kernel's pages and the
    age of the buffer, up to the first page of the server's with nothing the client can list. */
module Directories {
  import opened Files

  /** An entry as the server lists it: `next` is the offset that yields what follows it. */
  datatype Entry = Entry(name: seq<bv8>, next: nat, attributes: bool)

  datatype Tagged = Tagged(cookie: nat, entry: Entry)

  predicate IsDots(name: seq<bv8>) {
    name == [DOT] || name == [DOT, DOT]
  }

  /** Whether the client can list an entry: the dots always, another if it has attributes, and for `plus`, a valid name. */
  predicate Listable(entry: Entry, plus: bool) {
    IsDots(entry.name) || (entry.attributes && (plus ==> IsName(entry.name)))
  }

  /** In bytes: `.` and `..` can always be listed, and any other name only with attributes, and for `plus` only if the kernel
      could look it up: 1 to 255 bytes, none of them zero or a slash. */
  lemma ListableInBytes(entry: Entry, plus: bool)
    ensures entry.name == [0x2e] || entry.name == [0x2e, 0x2e] ==> Listable(entry, plus)
    ensures entry.name != [0x2e] && entry.name != [0x2e, 0x2e] ==>
              (Listable(entry, plus)
               <==> entry.attributes
                    && (plus ==> 1 <= |entry.name| <= 255 && forall b | b in entry.name :: b != 0 && b != 0x2f))
  {
  }

  /** Those of `entries` that can be listed. */
  function ListedOf(entries: seq<Entry>, plus: bool): seq<Entry> {
    if entries == [] then []
    else
      var last := entries[|entries| - 1];
      ListedOf(entries[..|entries| - 1], plus) + if Listable(last, plus) then [last] else []
  }

  ghost predicate NoneOf(entries: seq<Entry>, plus: bool) {
    forall e | e in entries :: !Listable(e, plus)
  }

  lemma {:induction false} ListedSplits(one: seq<Entry>, other: seq<Entry>, plus: bool)
    ensures ListedOf(one + other, plus) == ListedOf(one, plus) + ListedOf(other, plus)
    decreases |other|
  {
    if other == [] {
      assert one + other == one;
    } else {
      var n := |other| - 1;
      assert (one + other)[..|one + other| - 1] == one + other[..n];
      ListedSplits(one, other[..n], plus);
    }
  }

  /** Nothing is listed exactly where nothing can be. */
  lemma {:induction false} NoneListed(entries: seq<Entry>, plus: bool)
    ensures ListedOf(entries, plus) == [] <==> NoneOf(entries, plus)
  {
    if entries != [] {
      NoneListed(entries[..|entries| - 1], plus);
      assert entries == entries[..|entries| - 1] + [entries[|entries| - 1]];
    }
  }

  lemma {:induction false} AllListed(entries: seq<Entry>, plus: bool)
    requires forall e | e in entries :: Listable(e, plus)
    ensures ListedOf(entries, plus) == entries
  {
    if entries != [] {
      AllListed(entries[..|entries| - 1], plus);
      assert entries == entries[..|entries| - 1] + [entries[|entries| - 1]];
    }
  }

  // ---- The server's listing ----

  /** The offset that yields entry `i` of `listing` and what follows. */
  function CookieAt(listing: seq<Entry>, i: nat): nat
    requires i <= |listing|
  {
    if i == 0 then 0 else listing[i - 1].next
  }

  /** Offsets are not zero, and no two are the same. */
  ghost predicate Distinct(listing: seq<Entry>) {
    && (forall i | 0 <= i < |listing| :: listing[i].next != 0)
    && (forall i, j | 0 <= i < j < |listing| :: listing[i].next != listing[j].next)
  }

  lemma CookiesDiffer(listing: seq<Entry>, i: nat, j: nat)
    requires Distinct(listing) && i <= |listing| && j <= |listing| && CookieAt(listing, i) == CookieAt(listing, j)
    ensures i == j
  {
  }

  /** The server's answer to a fetch from entry `i`: some of what follows, in order, and only at the end nothing. */
  ghost predicate Answers(listing: seq<Entry>, i: nat, entries: seq<Entry>, end: bool) {
    && i + |entries| <= |listing|
    && entries == listing[i..i + |entries|]
    && (end ==> i + |entries| == |listing|)
    && (entries == [] ==> i == |listing|)
  }

  // ---- Pages ----

  /** Each entry with the offset that yields it. */
  function TagFrom(entries: seq<Entry>, first: nat): (tagged: seq<Tagged>)
    ensures |tagged| == |entries|
  {
    if entries == [] then [] else [Tagged(first, entries[0])] + TagFrom(entries[1..], entries[0].next)
  }

  method TagWithCookies(entries: seq<Entry>, first: nat) returns (tagged: seq<Tagged>)
    ensures tagged == TagFrom(entries, first)
  {
    tagged := [];
    var cookie := first;
    for i := 0 to |entries|
      invariant tagged + TagFrom(entries[i..], cookie) == TagFrom(entries, first)
    {
      assert entries[i..][1..] == entries[i + 1..];
      tagged := tagged + [Tagged(cookie, entries[i])];
      cookie := entries[i].next;
    }
  }

  /** A stretch of the listing, tagged as it was fetched. */
  ghost predicate IsStretch(listing: seq<Entry>, i: nat, page: seq<Tagged>) {
    i + |page| <= |listing| && page == TagFrom(listing[i..i + |page|], CookieAt(listing, i))
  }

  lemma {:induction false} StretchAt(listing: seq<Entry>, i: nat, page: seq<Tagged>, k: nat)
    requires IsStretch(listing, i, page) && k < |page|
    ensures page[k] == Tagged(CookieAt(listing, i + k), listing[i + k])
    decreases k
  {
    if k > 0 {
      StretchTail(listing, i, page);
      StretchAt(listing, i + 1, page[1..], k - 1);
    }
  }

  lemma StretchTail(listing: seq<Entry>, i: nat, page: seq<Tagged>)
    requires IsStretch(listing, i, page) && page != []
    ensures IsStretch(listing, i + 1, page[1..])
    ensures page[0] == Tagged(CookieAt(listing, i), listing[i])
  {
    assert listing[i..i + |page|][1..] == listing[i + 1..i + 1 + |page[1..]|];
  }

  /** What is left of a stretch is one. */
  lemma {:induction false} StretchDrop(listing: seq<Entry>, i: nat, page: seq<Tagged>, k: nat)
    requires IsStretch(listing, i, page) && k <= |page|
    ensures IsStretch(listing, i + k, page[k..])
    decreases k
  {
    if k > 0 {
      StretchTail(listing, i, page);
      StretchDrop(listing, i + 1, page[1..], k - 1);
      assert page[1..][k - 1..] == page[k..];
    }
  }

  lemma StretchGrows(listing: seq<Entry>, more: seq<Entry>, i: nat, page: seq<Tagged>)
    requires IsStretch(listing, i, page)
    ensures IsStretch(listing + more, i, page)
  {
    assert (listing + more)[i..i + |page|] == listing[i..i + |page|];
    assert CookieAt(listing + more, i) == CookieAt(listing, i);
  }

  /** The buffer is a stretch of the listing, and the end recorded is its end. */
  ghost predicate Fits(listing: seq<Entry>, buffer: seq<Tagged>, end: Option<nat>) {
    && (buffer != [] ==> exists i: nat :: IsStretch(listing, i, buffer))
    && (end.Some? ==> listing != [] && end.value == listing[|listing| - 1].next)
  }

  class DirState {
    var buffer: seq<Tagged>
    var end: Option<nat>

    constructor ()
      ensures buffer == [] && end == None
    {
      buffer, end := [], None;
    }

    /** Names were added to the directory, and it ends elsewhere: the buffer is still a stretch of it. */
    method Grew(ghost listing: seq<Entry>, ghost more: seq<Entry>)
      requires Fits(listing, buffer, end)
      modifies this`end
      ensures Fits(listing + more, buffer, end)
    {
      end := None;
      if buffer != [] {
        ghost var i: nat :| IsStretch(listing, i, buffer);
        StretchGrows(listing, more, i, buffer);
      }
    }

    /** The page that starts at `offset`: the buffer where it continues there and is `young`, nothing at the end, and
        otherwise what the server answers, which is `entries`. */
    method Page(offset: nat, young: bool, entries: seq<Entry>, ends: bool, ghost listing: seq<Entry>, ghost i: nat)
      returns (page: seq<Tagged>)
      requires Distinct(listing) && Fits(listing, buffer, end)
      requires i <= |listing| && offset == CookieAt(listing, i) && Answers(listing, i, entries, ends)
      modifies this
      ensures IsStretch(listing, i, page) && (page == [] ==> i == |listing|)
      ensures buffer == [] && Fits(listing, buffer, end)
      ensures page == TagFrom(entries, offset) || (offset != 0 && young && old(buffer) != [] && page == old(buffer))
      ensures offset != 0 && young && old(buffer) != [] && old(buffer)[0].cookie == offset ==> page == old(buffer)
      ensures end == old(end) || (entries != [] && end == if ends then Some(entries[|entries| - 1].next) else None)
    {
      if offset != 0 && young && buffer != [] && buffer[0].cookie == offset {
        page := buffer;
        buffer := [];
        ghost var j: nat :| IsStretch(listing, j, page);
        StretchAt(listing, j, page, 0);
        CookiesDiffer(listing, i, j);
        return;
      }
      buffer := [];
      if offset != 0 && end == Some(offset) {
        CookiesDiffer(listing, i, |listing|);
        return [];
      }
      if entries != [] {
        end := if ends then Some(entries[|entries| - 1].next) else None;
      }
      page := TagWithCookies(entries, offset);
    }

    /** Hand `page` to the kernel, which has room for `room` entries: what it took, what it did not kept for its next
        request. An entry that cannot be listed is skipped. */
    method Fill(page: seq<Tagged>, room: nat, plus: bool) returns (taken: seq<Entry>, ghost k: nat)
      modifies this`buffer
      ensures Took(page, room, plus, k, taken) && buffer == page[k..]
      ensures buffer != [] ==> Listable(buffer[0].entry, plus)
    {
      taken := [];
      buffer := [];
      for j := 0 to |page|
        invariant buffer == [] && |taken| <= room && taken == Listed(page[..j], plus)
      {
        assert page[..j + 1][..j] == page[..j];
        if Listable(page[j].entry, plus) {
          if |taken| == room {
            buffer := [page[j]] + page[j + 1..];
            k := j;
            return;
          }
          taken := taken + [page[j].entry];
        }
      }
      k := |page|;
    }

    /** One request of the kernel's for a page at `offset`: what can be listed up to `place`, where the next request goes on
        from. Nothing is taken only where nothing of the page can be. */
    method ReadDir(offset: nat, young: bool, plus: bool, room: nat, entries: seq<Entry>, ends: bool,
                   ghost listing: seq<Entry>, ghost i: nat)
      returns (taken: seq<Entry>, ghost place: nat)
      requires Distinct(listing) && Fits(listing, buffer, end)
      requires i <= |listing| && offset == CookieAt(listing, i) && Answers(listing, i, entries, ends)
      modifies this
      ensures Fits(listing, buffer, end) && (buffer != [] ==> Listable(buffer[0].entry, plus))
      ensures GoesOn(listing, i, plus, taken, place) && |taken| <= room
      ensures taken == [] && room > 0 ==>
          NoneOf(entries, plus) || (offset != 0 && old(buffer) != [] && !Listable(old(buffer)[0].entry, plus))
    {
      var page := Page(offset, young, entries, ends, listing, i);
      ghost var k;
      taken, k := Fill(page, room, plus);
      place := ReadsOn(listing, i, page, room, plus, k, taken);
      if taken == [] && room > 0 {
        NothingToList(listing, i, page, entries, ends, old(buffer), plus);
      }
    }
  }

  /** Read a directory through as the kernel does, from its start and on from the last cookie of each page, until a page
      is empty: `serve` is the server's answer from each offset, `room` and `young` the room and the buffer's age at each
      request. It stops at a place from which the server's answer has nothing to list. */
  method ReadThrough(state: DirState, listing: seq<Entry>, serve: nat -> (seq<Entry>, bool), room: nat -> nat,
                     young: nat -> bool, plus: bool)
    returns (all: seq<Entry>, ghost stopped: nat)
    requires Distinct(listing) && Fits(listing, state.buffer, state.end)
    requires forall i | 0 <= i <= |listing| ::
               Answers(listing, i, serve(CookieAt(listing, i)).0, serve(CookieAt(listing, i)).1)
    requires forall n: nat :: room(n) > 0
    modifies state
    ensures stopped <= |listing| && all == ListedOf(listing[..stopped], plus)
    ensures NoneOf(serve(CookieAt(listing, stopped)).0, plus)
    ensures all == ListedOf(listing, plus) <==> NoneOf(listing[stopped..], plus)
    ensures (forall e | e in listing :: Listable(e, plus)) ==> all == listing
  {
    all := [];
    var offset, requests := 0, 0;
    ghost var place: nat := 0;
    while true
      invariant place <= |listing| && all == ListedOf(listing[..place], plus) && offset == CookieAt(listing, place)
      invariant Fits(listing, state.buffer, state.end)
      invariant offset != 0 && state.buffer != [] ==> Listable(state.buffer[0].entry, plus)
      decreases |listing| - place
    {
      var answer := serve(offset);
      var taken, next := state.ReadDir(offset, young(requests), plus, room(requests), answer.0, answer.1, listing, place);
      if taken == [] {
        stopped := place;
        ListedSoFar(listing, stopped, plus);
        if forall e | e in listing :: Listable(e, plus) {
          StopsAtEnd(listing, stopped, answer.0, answer.1, plus);
        }
        return;
      }
      TakesOn(listing, place, plus, taken, next);
      offset := taken[|taken| - 1].next;
      all := all + taken;
      place := next;
      requests := requests + 1;
    }
  }

  /** What was `taken` from entry `i` on is what can be listed up to `place`, the end of the last of it. */
  ghost predicate GoesOn(listing: seq<Entry>, i: nat, plus: bool, taken: seq<Entry>, place: nat) {
    && i <= place <= |listing| && taken == ListedOf(listing[i..place], plus)
    && (place > i ==> taken != [] && taken[|taken| - 1] == listing[place - 1])
  }

  /** The entries of a page that can be listed. */
  function Listed(page: seq<Tagged>, plus: bool): seq<Entry> {
    if page == [] then []
    else if Listable(page[|page| - 1].entry, plus) then Listed(page[..|page| - 1], plus) + [page[|page| - 1].entry]
    else Listed(page[..|page| - 1], plus)
  }

  /** The kernel took what can be listed of the first `k` of a page, and stopped there only for want of room. */
  ghost predicate Took(page: seq<Tagged>, room: nat, plus: bool, k: nat, taken: seq<Entry>) {
    k <= |page| && taken == Listed(page[..k], plus) && |taken| <= room && (k < |page| ==> |taken| == room)
  }

  lemma {:induction false} ListedStretch(listing: seq<Entry>, i: nat, page: seq<Tagged>, plus: bool, k: nat)
    requires IsStretch(listing, i, page) && k <= |page|
    ensures Listed(page[..k], plus) == ListedOf(listing[i..i + k], plus)
  {
    if k > 0 {
      ListedStretch(listing, i, page, plus, k - 1);
      StretchAt(listing, i, page, k - 1);
      assert page[..k][..k - 1] == page[..k - 1];
      assert listing[i..i + k][..k - 1] == listing[i..i + k - 1];
    }
  }

  /** The end of the last entry listed before `j`. */
  lemma {:induction false} LastListed(listing: seq<Entry>, i: nat, j: nat, plus: bool) returns (place: nat)
    requires i <= j <= |listing|
    ensures place <= j && GoesOn(listing, i, plus, ListedOf(listing[i..j], plus), place)
  {
    place := j;
    if j > i {
      assert listing[i..j][..j - i - 1] == listing[i..j - 1];
      if !Listable(listing[j - 1], plus) {
        place := LastListed(listing, i, j - 1, plus);
      }
    }
  }

  /** What a page gives: what can be listed of it up to some place, and with room, nothing only if none of it can be. */
  lemma {:induction false} ReadsOn(listing: seq<Entry>, i: nat, page: seq<Tagged>, room: nat, plus: bool, k: nat, taken: seq<Entry>)
    returns (place: nat)
    requires IsStretch(listing, i, page) && Took(page, room, plus, k, taken)
    ensures GoesOn(listing, i, plus, taken, place) && IsStretch(listing, i + k, page[k..])
    ensures taken == [] && room > 0 ==> ListedOf(listing[i..i + |page|], plus) == []
  {
    ListedStretch(listing, i, page, plus, k);
    place := LastListed(listing, i, i + k, plus);
    StretchDrop(listing, i, page, k);
  }

  lemma {:induction false} NothingToList(listing: seq<Entry>, i: nat, page: seq<Tagged>, entries: seq<Entry>, ends: bool,
                                         was: seq<Tagged>, plus: bool)
    requires IsStretch(listing, i, page) && Answers(listing, i, entries, ends)
    requires page == TagFrom(entries, CookieAt(listing, i)) || (CookieAt(listing, i) != 0 && was != [] && page == was)
    requires ListedOf(listing[i..i + |page|], plus) == []
    ensures NoneOf(entries, plus) || (CookieAt(listing, i) != 0 && was != [] && !Listable(was[0].entry, plus))
  {
    NoneTaken(listing, i, page, plus);
  }

  lemma {:induction false} NoneTaken(listing: seq<Entry>, i: nat, page: seq<Tagged>, plus: bool)
    requires IsStretch(listing, i, page) && ListedOf(listing[i..i + |page|], plus) == []
    ensures NoneOf(listing[i..i + |page|], plus) && (page != [] ==> !Listable(page[0].entry, plus))
  {
    NoneListed(listing[i..i + |page|], plus);
    if page != [] {
      StretchAt(listing, i, page, 0);
      assert listing[i..i + |page|][0] == listing[i];
    }
  }

  /** All that can be listed has been exactly if nothing that can be follows. */
  lemma ListedSoFar(listing: seq<Entry>, stopped: nat, plus: bool)
    requires stopped <= |listing|
    ensures ListedOf(listing[..stopped], plus) == ListedOf(listing, plus) <==> NoneOf(listing[stopped..], plus)
  {
    ListedSplits(listing[..stopped], listing[stopped..], plus);
    assert listing[..stopped] + listing[stopped..] == listing;
    NoneListed(listing[stopped..], plus);
  }

  lemma StopsAtEnd(listing: seq<Entry>, stopped: nat, entries: seq<Entry>, end: bool, plus: bool)
    requires stopped <= |listing| && Answers(listing, stopped, entries, end) && NoneOf(entries, plus)
    requires forall e | e in listing :: Listable(e, plus)
    ensures ListedOf(listing[..stopped], plus) == listing
  {
    AllListed(entries, plus);
    NoneListed(entries, plus);
    assert listing[..stopped] == listing;
    AllListed(listing, plus);
  }

  lemma TakesOn(listing: seq<Entry>, i: nat, plus: bool, taken: seq<Entry>, place: nat)
    requires GoesOn(listing, i, plus, taken, place) && taken != []
    ensures i < place && CookieAt(listing, place) == taken[|taken| - 1].next
    ensures ListedOf(listing[..place], plus) == ListedOf(listing[..i], plus) + taken
  {
    assert listing[i..i] == [];
    ListedSplits(listing[..i], listing[i..place], plus);
    assert listing[..i] + listing[i..place] == listing[..place];
  }
}
