/** Converging the ingress interface's peers on the revision's, and telling when they differ.

Assigning an allowed address to a peer takes it from whichever peer held it before, so the order of
the assignments matters when two devices swap addresses. */
module PeerSync {
  import opened Ordering
  import opened Domain

  /** A peer by its public key; addresses are the text they are written as. */
  datatype Peer = Peer(key: string, allowed: seq<string>)

  function Elements(s: seq<string>): set<string> { set x | x in s }

  ghost predicate KeysApart(peers: seq<Peer>) {
    forall i, j :: 0 <= i < j < |peers| ==> peers[i].key != peers[j].key
  }

  /** No two peers of the revision claim one address. */
  ghost predicate AllowedApart(peers: seq<Peer>) {
    forall i, j :: 0 <= i < j < |peers| ==> Elements(peers[i].allowed) !! Elements(peers[j].allowed)
  }

  ghost predicate Listed(peers: seq<Peer>, key: string) { exists i :: 0 <= i < |peers| && peers[i].key == key }

  /** The interface carries exactly these peers, with exactly their addresses. */
  ghost predicate Carries(live: map<string, set<string>>, peers: seq<Peer>) {
    && (forall key :: key in live <==> Listed(peers, key))
    && (forall i :: 0 <= i < |peers| ==> peers[i].key in live && live[peers[i].key] == Elements(peers[i].allowed))
  }

  /** What is left of a peer's addresses once the peers after it have been assigned theirs. */
  ghost function Kept(peers: seq<Peer>, i: nat, n: nat): set<string>
    requires i < |peers| && n <= |peers|
  {
    set x | x in peers[i].allowed && forall j :: i < j < n ==> x !in peers[j].allowed
  }

  function TakeFrom(live: map<string, set<string>>, addresses: set<string>): map<string, set<string>> {
    map key | key in live :: live[key] - addresses
  }

  class Interface {
    const script: nat -> bool    // whether each command succeeds
    var clock: nat
    var live: map<string, set<string>>

    constructor (script: nat -> bool, live: map<string, set<string>>)
      ensures this.script == script && this.live == live
    {
      this.script, this.clock, this.live := script, 0, live;
    }

    method Run() returns (ok: bool)
      modifies `clock
      ensures (forall n: nat :: script(n)) ==> ok
    {
      ok := script(clock);
      clock := clock + 1;
    }

    /** `set peer K allowed-ips L`: the peer gets exactly L, and everyone else loses it. */
    method SetPeer(peer: Peer) returns (ok: bool)
      modifies `clock, `live
      ensures ok ==> live == TakeFrom(old(live), Elements(peer.allowed))[peer.key := Elements(peer.allowed)]
      ensures !ok ==> live == old(live)
      ensures (forall n: nat :: script(n)) ==> ok
    {
      ok := Run();
      if ok { live := TakeFrom(live, Elements(peer.allowed))[peer.key := Elements(peer.allowed)]; }
    }

    method RemovePeer(key: string) returns (ok: bool)
      modifies `clock, `live
      ensures live == if ok then old(live) - {key} else old(live)
      ensures (forall n: nat :: script(n)) ==> ok
    {
      ok := Run();
      if ok { live := live - {key}; }
    }

    method AssignAll(peers: seq<Peer>) returns (ok: bool)
      requires KeysApart(peers)
      modifies `clock, `live
      ensures ok ==> forall i :: 0 <= i < |peers| ==>
        peers[i].key in live && live[peers[i].key] == Kept(peers, i, |peers|)
      ensures ok ==> forall key :: key in live <==> key in old(live) || Listed(peers, key)
      ensures (forall n: nat :: script(n)) ==> ok
    {
      ok := true;
      for k := 0 to |peers|
        invariant ok
        invariant forall i :: 0 <= i < k ==> peers[i].key in live && live[peers[i].key] == Kept(peers, i, k)
        invariant forall key :: key in live <==> key in old(live) || Listed(peers[..k], key)
      {
        ghost var before := live;
        ok := SetPeer(peers[k]);
        if !ok { return; }
        forall i | 0 <= i < k ensures peers[i].key in live && live[peers[i].key] == Kept(peers, i, k + 1) {
          KeptNext(peers, i, k);
        }
        KeptLast(peers, k);
        ListedNext(peers, k);
      }
      assert peers[..|peers|] == peers;
    }

    method RemoveOthers(observed: set<string>, wanted: set<string>) returns (ok: bool)
      modifies `clock, `live
      ensures ok ==> forall key :: key in live <==> key in old(live) && !(key in observed && key !in wanted)
      ensures forall key :: key in live ==> key in old(live) && live[key] == old(live)[key]
      ensures (forall n: nat :: script(n)) ==> ok
    {
      var left := observed;
      ok := true;
      while left != {}
        invariant ok && left <= observed
        invariant forall key :: key in live <==>
          key in old(live) && !(key in observed && key !in left && key !in wanted)
        invariant forall key :: key in live ==> key in old(live) && live[key] == old(live)[key]
      {
        var key :| key in left;
        left := left - {key};
        if key in wanted { continue; }
        ok := RemovePeer(key);
        if !ok { return; }
      }
    }

    /** From whatever peers were observed, ends with exactly the revision's, address swaps included;
    that is, unless two of the revision's own peers claim one address, when it cannot. */
    method SyncPeers(peers: seq<Peer>, observed: set<string>) returns (ok: bool)
      requires KeysApart(peers) && observed == live.Keys
      modifies `clock, `live
      ensures (forall n: nat :: script(n)) ==> ok
      ensures ok ==> (Carries(live, peers) <==> AllowedApart(peers))
    {
      ok := AssignAll(peers);
      if !ok { return; }
      var wanted := Keys(peers);
      ok := RemoveOthers(observed, wanted);
      if ok { CarriesIff(live, peers); }
    }
  }

  function Keys(peers: seq<Peer>): (keys: set<string>)
    ensures forall key :: key in keys <==> Listed(peers, key)
  {
    set p | p in peers :: p.key
  }

  lemma KeptNext(peers: seq<Peer>, i: nat, k: nat)
    requires i < k < |peers|
    ensures Kept(peers, i, k + 1) == Kept(peers, i, k) - Elements(peers[k].allowed)
  {
  }

  lemma KeptLast(peers: seq<Peer>, k: nat)
    requires k < |peers|
    ensures Kept(peers, k, k + 1) == Elements(peers[k].allowed)
  {
  }

  lemma ListedNext(peers: seq<Peer>, k: nat)
    requires k < |peers|
    ensures forall key :: Listed(peers[..k + 1], key) <==> Listed(peers[..k], key) || key == peers[k].key
  {
    var before, after := peers[..k], peers[..k + 1];
    assert after == before + [peers[k]];
    forall key | Listed(before, key) || key == peers[k].key ensures Listed(after, key) {
      if Listed(before, key) {
        var i :| 0 <= i < |before| && before[i].key == key;
        assert after[i].key == key;
      } else {
        assert after[k].key == key;
      }
    }
  }

  lemma CarriesIff(live: map<string, set<string>>, peers: seq<Peer>)
    requires forall key :: key in live <==> Listed(peers, key)
    requires forall i :: 0 <= i < |peers| ==> peers[i].key in live && live[peers[i].key] == Kept(peers, i, |peers|)
    ensures Carries(live, peers) <==> AllowedApart(peers)
  {
    if AllowedApart(peers) {
      forall i | 0 <= i < |peers| ensures Kept(peers, i, |peers|) == Elements(peers[i].allowed) {
        forall x, j | x in peers[i].allowed && i < j < |peers| ensures x !in peers[j].allowed {
          assert x in Elements(peers[i].allowed);
          assert Elements(peers[i].allowed) !! Elements(peers[j].allowed);
        }
      }
    }
    if Carries(live, peers) {
      forall i, j | 0 <= i < j < |peers| ensures Elements(peers[i].allowed) !! Elements(peers[j].allowed) {
        forall x | x in Elements(peers[i].allowed) ensures x !in Elements(peers[j].allowed) {
          assert x in Kept(peers, i, |peers|);
        }
      }
    }
  }

  // ------------------------------------------------------------------
  // Differences
  // ------------------------------------------------------------------

  datatype Change = Create(key: string) | Update(key: string) | Delete(key: string)

  method EqualLists(first: seq<string>, second: seq<string>) returns (same: bool)
    requires |first| == |second|
    ensures same <==> first == second
  {
    for i := 0 to |first|
      invariant first[..i] == second[..i]
    {
      if first[i] != second[i] { return false; }
    }
    assert first == first[..|first|] && second == second[..|first|];
    return true;
  }

  /** Compares two lists by sorting copies of them. */
  method SameStrings(a: seq<string>, b: seq<string>) returns (same: bool)
    ensures same <==> multiset(a) == multiset(b)
  {
    hide Sort, LexLe;
    assert |multiset(a)| == |a| && |multiset(b)| == |b|;
    if |a| != |b| { return false; }
    same := EqualLists(Sort(LexLe, a), Sort(LexLe, b));
    if multiset(a) == multiset(b) {
      LexPreorder();
      LexNoTies(a);
      SortForgetsOrder(LexLe, a, b);
    }
  }

  method SortedKeys(m: map<string, seq<string>>) returns (keys: seq<string>)
    ensures keys == SortedNames(m.Keys)
  {
    keys := [];
    var left := m.Keys;
    while left != {}
      invariant left <= m.Keys
      invariant Distinct(keys) && forall x :: x in keys <==> x in m.Keys - left
    {
      var key :| key in left;
      assert key !in keys;
      left := left - {key};
      keys := keys + [key];
    }
    ListingSorts(keys, m.Keys);
    keys := Sort(LexLe, keys);
  }

  function ByKey(peers: seq<Peer>): map<string, seq<string>> {
    if peers == [] then map[] else ByKey(peers[..|peers| - 1])[peers[|peers| - 1].key := peers[|peers| - 1].allowed]
  }

  method IndexPeers(peers: seq<Peer>) returns (m: map<string, seq<string>>)
    ensures m == ByKey(peers)
  {
    m := map[];
    for i := 0 to |peers|
      invariant m == ByKey(peers[..i])
    {
      assert peers[..i + 1][..i] == peers[..i];
      m := m[peers[i].key := peers[i].allowed];
    }
    assert peers[..|peers|] == peers;
  }

  /** What a difference is, for one key. */
  function ChangeFor(wanted: map<string, seq<string>>, present: map<string, seq<string>>, key: string): Option<Change> {
    if key in wanted then
      (if key !in present then Some(Create(key))
       else if multiset(present[key]) != multiset(wanted[key]) then Some(Update(key))
       else None)
    else if key in present then Some(Delete(key))
    else None
  }

  function ChangesFor(wanted: map<string, seq<string>>, present: map<string, seq<string>>,
      keys: seq<string>): seq<Change> {
    if keys == [] then []
    else
      var change := ChangeFor(wanted, present, keys[|keys| - 1]);
      ChangesFor(wanted, present, keys[..|keys| - 1]) + (if change.Some? then [change.value] else [])
  }

  ghost function PeerChanges(peers: seq<Peer>, observed: seq<Peer>): seq<Change> {
    var wanted, present := ByKey(peers), ByKey(observed);
    ChangesFor(wanted, present, SortedNames(wanted.Keys))
      + ChangesFor(wanted, present, SortedNames(present.Keys - wanted.Keys))
  }

  lemma ChangesGrow(wanted: map<string, seq<string>>, present: map<string, seq<string>>, keys: seq<string>, i: nat)
    requires i < |keys|
    ensures ChangesFor(wanted, present, keys[..i + 1]) == ChangesFor(wanted, present, keys[..i]) +
      (if ChangeFor(wanted, present, keys[i]).Some? then [ChangeFor(wanted, present, keys[i]).value] else [])
  {
    assert keys[..i + 1][..i] == keys[..i];
  }

  /** Creations and updates by wanted key, then deletions by observed key. */
  method DiffPeers(peers: seq<Peer>, observed: seq<Peer>) returns (changes: seq<Change>)
    ensures changes == PeerChanges(peers, observed)
  {
    var wanted := IndexPeers(peers);
    var present := IndexPeers(observed);
    var keys := SortedKeys(wanted);
    changes := [];
    for i := 0 to |keys|
      invariant changes == ChangesFor(wanted, present, keys[..i])
    {
      var key := keys[i];
      ChangesGrow(wanted, present, keys, i);
      assert key in keys;
      if key !in present {
        changes := changes + [Create(key)];
        continue;
      }
      var same := SameStrings(present[key], wanted[key]);
      if !same { changes := changes + [Update(key)]; }
    }
    assert keys[..|keys|] == keys;
    var deletions := Deletions(wanted, present);
    changes := changes + deletions;
  }

  method Deletions(wanted: map<string, seq<string>>, present: map<string, seq<string>>) returns (changes: seq<Change>)
    ensures changes == ChangesFor(wanted, present, SortedNames(present.Keys - wanted.Keys))
  {
    var gone := map key | key in present && key !in wanted :: present[key];
    var keys := SortedKeys(gone);
    assert gone.Keys == present.Keys - wanted.Keys;
    changes := [];
    for i := 0 to |keys|
      invariant changes == ChangesFor(wanted, present, keys[..i])
    {
      ChangesGrow(wanted, present, keys, i);
      assert keys[i] in keys;
      changes := changes + [Delete(keys[i])];
    }
    assert keys[..|keys|] == keys;
  }

  lemma {:induction false} NoChanges(wanted: map<string, seq<string>>, present: map<string, seq<string>>,
      keys: seq<string>)
    ensures ChangesFor(wanted, present, keys) == [] <==> forall key :: key in keys ==>
      ChangeFor(wanted, present, key).None?
  {
    if keys != [] {
      NoChanges(wanted, present, keys[..|keys| - 1]);
      assert keys == keys[..|keys| - 1] + [keys[|keys| - 1]];
    }
  }

  /** Nothing is reported just when both sides name the same peers with the same addresses. */
  lemma NothingDiffersIff(peers: seq<Peer>, observed: seq<Peer>)
    ensures PeerChanges(peers, observed) == [] <==>
      && ByKey(peers).Keys == ByKey(observed).Keys
      && forall key :: key in ByKey(peers) ==> multiset(ByKey(peers)[key]) == multiset(ByKey(observed)[key])
  {
    var wanted, present := ByKey(peers), ByKey(observed);
    hide ByKey;
    NoChanges(wanted, present, SortedNames(wanted.Keys));
    NoChanges(wanted, present, SortedNames(present.Keys - wanted.Keys));
    if PeerChanges(peers, observed) == [] {
      forall key ensures key in wanted <==> key in present {
        assert key in wanted ==> key in SortedNames(wanted.Keys);
        assert key in present.Keys - wanted.Keys ==> key in SortedNames(present.Keys - wanted.Keys);
      }
    }
  }

  lemma {:induction false} ChangesIn(wanted: map<string, seq<string>>, present: map<string, seq<string>>,
      keys: seq<string>, change: Change)
    ensures change in ChangesFor(wanted, present, keys) <==>
      exists key :: key in keys && ChangeFor(wanted, present, key) == Some(change)
  {
    hide ChangeFor;
    if keys != [] {
      var front, last := keys[..|keys| - 1], keys[|keys| - 1];
      assert keys == front + [last];
      ChangesIn(wanted, present, front, change);
    }
  }

  /** What is reported, and of what kind: a peer to create that only the revision names, one to delete that
  only the interface carries, and one to update whose addresses differ. */
  lemma ReportedIff(peers: seq<Peer>, observed: seq<Peer>, key: string)
    requires KeysApart(peers) && KeysApart(observed)
    ensures Create(key) in PeerChanges(peers, observed) <==> Listed(peers, key) && !Listed(observed, key)
    ensures Delete(key) in PeerChanges(peers, observed) <==> !Listed(peers, key) && Listed(observed, key)
    ensures Update(key) in PeerChanges(peers, observed) <==>
      exists x, y :: x in peers && y in observed && x.key == y.key == key && multiset(x.allowed) != multiset(y.allowed)
  {
    hide ByKey, ChangesFor;
    var wanted, present := ByKey(peers), ByKey(observed);
    ByKeyIs(peers, key);
    ByKeyIs(observed, key);
    forall change: Change
      ensures change in PeerChanges(peers, observed) <==>
        exists k :: (k in wanted || k in present) && ChangeFor(wanted, present, k) == Some(change)
    {
      ChangesIn(wanted, present, SortedNames(wanted.Keys), change);
      ChangesIn(wanted, present, SortedNames(present.Keys - wanted.Keys), change);
    }
    if key in wanted && key in present {
      var i :| 0 <= i < |peers| && peers[i].key == key;
      var j :| 0 <= j < |observed| && observed[j].key == key;
      assert peers[i] in peers && observed[j] in observed;
      SameKeySamePeer(peers, key);
      SameKeySamePeer(observed, key);
    }
    assert ChangeFor(wanted, present, key) == Some(Update(key)) <==>
      key in wanted && key in present && multiset(present[key]) != multiset(wanted[key]);
    UpdatesAgree(peers, observed, key);
  }

  lemma SameKeySamePeer(peers: seq<Peer>, key: string)
    requires KeysApart(peers)
    ensures forall x, y :: x in peers && y in peers && x.key == y.key ==> x == y
  {
    forall x, y | x in peers && y in peers && x.key == y.key ensures x == y {
      var i :| 0 <= i < |peers| && peers[i] == x;
      var j :| 0 <= j < |peers| && peers[j] == y;
      assert i == j;
    }
  }

  lemma UpdatesAgree(peers: seq<Peer>, observed: seq<Peer>, key: string)
    requires KeysApart(peers) && KeysApart(observed)
    ensures (key in ByKey(peers) && key in ByKey(observed)
             && multiset(ByKey(observed)[key]) != multiset(ByKey(peers)[key])) <==>
      exists x, y :: x in peers && y in observed && x.key == y.key == key && multiset(x.allowed) != multiset(y.allowed)
  {
    hide ByKey;
    ByKeyIs(peers, key);
    ByKeyIs(observed, key);
    SameKeySamePeer(peers, key);
    SameKeySamePeer(observed, key);
    if key in ByKey(peers) && key in ByKey(observed) {
      var i :| 0 <= i < |peers| && peers[i].key == key;
      var j :| 0 <= j < |observed| && observed[j].key == key;
      assert peers[i] in peers && observed[j] in observed;
    }
    if x, y :| x in peers && y in observed && x.key == y.key == key && multiset(x.allowed) != multiset(y.allowed) {
      var i :| 0 <= i < |peers| && peers[i] == x;
      var j :| 0 <= j < |observed| && observed[j] == y;
    }
  }

  /** A dump of the interface: each peer once, each of its addresses once, in whatever order. */
  ghost predicate Dumps(observed: seq<Peer>, live: map<string, set<string>>) {
    && KeysApart(observed)
    && (forall key :: key in live <==> Listed(observed, key))
    && (forall i :: 0 <= i < |observed| ==>
          observed[i].key in live && Distinct(observed[i].allowed)
            && Elements(observed[i].allowed) == live[observed[i].key])
  }

  lemma {:induction false} ByKeyIs(peers: seq<Peer>, key: string)
    requires KeysApart(peers)
    ensures key in ByKey(peers) <==> Listed(peers, key)
    ensures forall i :: 0 <= i < |peers| ==>
      peers[i].key in ByKey(peers) && ByKey(peers)[peers[i].key] == peers[i].allowed
  {
    if peers != [] {
      var front, n := peers[..|peers| - 1], |peers| - 1;
      ByKeyIs(front, key);
      assert forall i :: 0 <= i < n ==> front[i] == peers[i];
      if Listed(front, key) {
        var i :| 0 <= i < |front| && front[i].key == key;
        assert peers[i].key == key;
      }
      assert peers[n].key == key ==> Listed(peers, key);
    }
  }

  lemma PeerShows(peers: seq<Peer>, observed: seq<Peer>, live: map<string, set<string>>, i: nat)
    requires KeysApart(peers) && (forall i :: 0 <= i < |peers| ==> Distinct(peers[i].allowed)) && Dumps(observed, live)
    requires i < |peers| && peers[i].key in live
    ensures peers[i].key in ByKey(peers) && peers[i].key in ByKey(observed)
    ensures multiset(ByKey(peers)[peers[i].key]) == multiset(ByKey(observed)[peers[i].key]) <==>
      live[peers[i].key] == Elements(peers[i].allowed)
  {
    hide Elements, ByKey, Distinct;
    ByKeyIs(peers, "");
    ByKeyIs(observed, "");
    var j :| 0 <= j < |observed| && observed[j].key == peers[i].key;
    SameElementsSameMultiset(peers[i].allowed, observed[j].allowed);
  }

  /** Once the interface carries the revision's peers, a dump of it shows no difference, and not
  before. */
  lemma ConvergedShowsNothing(peers: seq<Peer>, observed: seq<Peer>, live: map<string, set<string>>)
    requires KeysApart(peers) && (forall i :: 0 <= i < |peers| ==> Distinct(peers[i].allowed))
    requires Dumps(observed, live)
    ensures PeerChanges(peers, observed) == [] <==> Carries(live, peers)
  {
    hide PeerChanges, Elements, ByKey, Distinct, Dumps, Listed;
    NothingDiffersIff(peers, observed);
    KeysListed(peers, observed, live);
    forall i | 0 <= i < |peers| && peers[i].key in live
      ensures peers[i].key in ByKey(peers) && peers[i].key in ByKey(observed)
      ensures multiset(ByKey(peers)[peers[i].key]) == multiset(ByKey(observed)[peers[i].key]) <==>
        live[peers[i].key] == Elements(peers[i].allowed)
    {
      PeerShows(peers, observed, live, i);
    }
  }

  lemma KeysListed(peers: seq<Peer>, observed: seq<Peer>, live: map<string, set<string>>)
    requires KeysApart(peers) && Dumps(observed, live)
    ensures forall key :: (key in ByKey(peers) <==> Listed(peers, key)) && (key in ByKey(observed) <==> key in live)
    ensures forall i :: 0 <= i < |peers| ==> peers[i].key in ByKey(peers)
    ensures forall key :: key in ByKey(peers) ==> exists i :: 0 <= i < |peers| && peers[i].key == key
  {
    hide ByKey, Elements, Distinct;
    forall key ensures (key in ByKey(peers) <==> Listed(peers, key)) && (key in ByKey(observed) <==> key in live) {
      ByKeyIs(peers, key);
      ByKeyIs(observed, key);
    }
    ByKeyIs(peers, "");
  }

  lemma SameElementsSameMultiset(a: seq<string>, b: seq<string>)
    requires Distinct(a) && Distinct(b)
    ensures multiset(a) == multiset(b) <==> Elements(a) == Elements(b)
  {
    if multiset(a) == multiset(b) { SameElements(a, b); }
    if Elements(a) == Elements(b) {
      assert forall x :: x in a <==> x in Elements(a);
      DistinctSameElements(a, b);
    }
  }
}
