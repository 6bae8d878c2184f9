/**
 Power inhibitors: which ones block a target, and the in-memory mirror of the
 `power:inhibits` hash.
 */
module Inhibitors {
  import opened Options
  import opened PowerTypes

  datatype Kind = Block | Delay | SuspendOnly

  /**
   One inhibitor. `handle` is its identity (the program compares addresses);
   `redisId` is empty for inhibitors the process created itself, and `conn` is the
   connection that holds it, if one does.
   */
  datatype Inhibitor = Inhibitor(
    handle: nat, who: string, what: string, why: string, kind: Kind, redisId: string, conn: Option<nat>)

  const MODEM := "librescoot-modem"

  predicate Blocks(i: Inhibitor, t: Target) {
    i.kind == Block || (i.kind == SuspendOnly && !IsHibernatePath(t))
  }

  /** By kind: block blocks everything, suspend-only exactly run and suspend, delay nothing. */
  lemma KindsBlock(i: Inhibitor, t: Target)
    ensures Blocks(i, t) <==> i.kind == Block || (i.kind == SuspendOnly && (t == Run || t == Suspend))
  {
  }

  predicate HasBlocking(all: seq<Inhibitor>, t: Target) {
    exists i | i in all :: Blocks(i, t)
  }

  /** Something blocks, and everything that does is the modem. */
  predicate HasOnlyModem(all: seq<Inhibitor>, t: Target) {
    HasBlocking(all, t) && forall i | i in all :: Blocks(i, t) ==> i.who == MODEM
  }

  // ----- The mirror -----

  /** A parsed hash value. */
  datatype Record = Record(who: string, what: string, why: string, kind: string)

  function KindOf(k: string): Kind {
    if k == "delay" then Delay else if k == "suspend-only" then SuspendOnly else Block
  }

  /** What is not "delay" or "suspend-only" blocks, misspellings included. */
  lemma KindIsRead(k: string)
    ensures KindOf(k) == Delay <==> k == "delay"
    ensures KindOf(k) == SuspendOnly <==> k == "suspend-only"
    ensures KindOf(k) == Block <==> k != "delay" && k != "suspend-only"
  {
    assert |"delay"| != |"suspend-only"|;
  }

  predicate Local(i: Inhibitor) {
    i.redisId == ""
  }

  /** The inhibitors of `all` that the process created itself, in order. */
  function Locals(all: seq<Inhibitor>): seq<Inhibitor> {
    if all == [] then []
    else (if Local(all[0]) then [all[0]] else []) + Locals(all[1..])
  }

  /** The hash ids of the others, in order. */
  function RedisIds(all: seq<Inhibitor>): seq<string> {
    if all == [] then []
    else (if Local(all[0]) then [] else [all[0].redisId]) + RedisIds(all[1..])
  }

  predicate Distinct(ids: seq<string>) {
    forall i, j | 0 <= i < j < |ids| :: ids[i] != ids[j]
  }

  /** The mirror agrees with the parseable keys of the hash: each id present exactly once, none besides. */
  ghost predicate Mirrors(all: seq<Inhibitor>, keys: set<string>) {
    Distinct(RedisIds(all)) && (forall k :: k in RedisIds(all) <==> k in keys)
  }

  lemma {:induction false} SplitJoins(a: seq<Inhibitor>, b: seq<Inhibitor>)
    ensures Locals(a + b) == Locals(a) + Locals(b)
    ensures RedisIds(a + b) == RedisIds(a) + RedisIds(b)
  {
    if a == [] {
      assert a + b == b;
    } else {
      assert (a + b)[1..] == a[1..] + b;
      SplitJoins(a[1..], b);
    }
  }

  /** Walking the list from the left, one more element. */
  lemma SplitSnoc(a: seq<Inhibitor>, x: Inhibitor)
    ensures Locals(a + [x]) == Locals(a) + (if Local(x) then [x] else [])
    ensures RedisIds(a + [x]) == RedisIds(a) + (if Local(x) then [] else [x.redisId])
  {
    SplitJoins(a, [x]);
    assert [x][1..] == [];
    assert Locals([x]) == (if Local(x) then [x] else []) + Locals([]);
    assert RedisIds([x]) == (if Local(x) then [] else [x.redisId]) + RedisIds([]);
  }

  /** The keys of the hash whose values parse. */
  function Parseable(entries: map<string, Option<Record>>): set<string> {
    set k | k in entries && entries[k].Some?
  }

  /** Ids in order, empty ones included. */
  function AllIds(all: seq<Inhibitor>): seq<string> {
    seq(|all|, i requires 0 <= i < |all| => all[i].redisId)
  }

  predicate Describes(r: Record, i: Inhibitor) {
    i.who == r.who && i.what == r.what && i.why == r.why && i.kind == KindOf(r.kind)
  }

  /** Whether a synchronisation keeps `x`, having walked over `a`: local, or the first one with a wanted id. */
  predicate Keeps(a: seq<Inhibitor>, x: Inhibitor, want: set<string>) {
    Local(x) || (x.redisId in want && x.redisId !in RedisIds(a))
  }

  /** What a synchronisation keeps of the list. */
  function Kept(all: seq<Inhibitor>, want: set<string>): seq<Inhibitor> {
    if all == [] then []
    else
      var a := all[..|all| - 1];
      var x := all[|all| - 1];
      if Keeps(a, x, want) then Kept(a, want) + [x] else Kept(a, want)
  }

  /** Handles below `next` are in use, each once. */
  predicate Identities(all: seq<Inhibitor>, next: nat) {
    && (forall i | i in all :: i.handle < next)
    && (forall i, j | 0 <= i < j < |all| :: all[i].handle != all[j].handle)
  }

  lemma {:induction false} KeptIdentities(all: seq<Inhibitor>, want: set<string>, next: nat)
    requires Identities(all, next)
    ensures Identities(Kept(all, want), next)
  {
    if all != [] {
      var a := all[..|all| - 1];
      var x := all[|all| - 1];
      KeptIdentities(a, want, next);
      KeptIsPart(a, want);
      forall i | i in Kept(a, want) ensures i.handle != x.handle {
        assert i in a;
      }
    }
  }

  lemma DistinctSnoc(ids: seq<string>, x: string)
    ensures Distinct(ids + [x]) <==> Distinct(ids) && x !in ids
  {
    var all := ids + [x];
    if Distinct(all) {
      forall i, j | 0 <= i < j < |ids| ensures ids[i] != ids[j] {
        assert all[i] != all[j];
      }
      forall i | 0 <= i < |ids| ensures ids[i] != x {
        assert all[i] != all[|ids|];
      }
    }
  }

  /** Local inhibitors all stay in place; of the mirrored ones each wanted id stays once. */
  lemma {:induction false} KeptSplits(all: seq<Inhibitor>, want: set<string>)
    ensures Locals(Kept(all, want)) == Locals(all)
    ensures Distinct(RedisIds(Kept(all, want)))
    ensures forall k :: k in RedisIds(Kept(all, want)) <==> k in want && k in RedisIds(all)
  {
    if all != [] {
      var a := all[..|all| - 1];
      var x := all[|all| - 1];
      assert all == a + [x];
      KeptSplits(a, want);
      SplitSnoc(a, x);
      SplitSnoc(Kept(a, want), x);
      DistinctSnoc(RedisIds(Kept(a, want)), x.redisId);
    } else {
      assert RedisIds(Kept(all, want)) == [] && RedisIds(all) == [];
    }
  }

  lemma {:induction false} KeptIsPart(all: seq<Inhibitor>, want: set<string>)
    ensures |Kept(all, want)| <= |all|
    ensures |Kept(all, want)| == |all| ==> Kept(all, want) == all
    ensures forall i | i in Kept(all, want) :: i in all
    ensures |Kept(all, want)| == |all| <==> Distinct(RedisIds(all)) && forall k | k in RedisIds(all) :: k in want
  {
    if all != [] {
      var a := all[..|all| - 1];
      var x := all[|all| - 1];
      assert all == a + [x];
      KeptIsPart(a, want);
      SplitSnoc(a, x);
      DistinctSnoc(RedisIds(a), x.redisId);
      if !Local(x) {
        assert forall k :: k in RedisIds(a) + [x.redisId] <==> k in RedisIds(a) || k == x.redisId;
      } else {
        assert RedisIds(all) == RedisIds(a);
      }
    }
  }

  /** Appending entries for further ids. */
  lemma {:induction false} AddedSplits(kept: seq<Inhibitor>, added: seq<Inhibitor>)
    ensures "" !in AllIds(added) ==> Locals(kept + added) == Locals(kept) && RedisIds(kept + added) == RedisIds(kept) + AllIds(added)
  {
    SplitJoins(kept, added);
    AllRedis(added);
  }

  lemma {:induction false} AllRedis(added: seq<Inhibitor>)
    ensures "" !in AllIds(added) ==> Locals(added) == [] && RedisIds(added) == AllIds(added)
    decreases |added|
  {
    if added != [] {
      AllRedis(added[1..]);
      assert AllIds(added) == [added[0].redisId] + AllIds(added[1..]);
    }
  }

  /** What one synchronisation with `entries` leaves of `before`. */
  ghost predicate Synced(before: seq<Inhibitor>, after: seq<Inhibitor>, entries: map<string, Option<Record>>) {
    var keys := Parseable(entries);
    var kept := Kept(before, keys);
    && kept <= after
    && var added := after[|kept|..];
       && (forall i | i in added :: i.redisId in keys && Describes(entries[i.redisId].value, i))
       && Distinct(AllIds(added))
       && (forall k :: k in AllIds(added) <==> k in keys && k !in RedisIds(kept))
  }

  /**
   The mirror property and its exact condition: a synchronisation leaves each
   parseable key exactly once and the local inhibitors untouched, if and only if
   the empty string is not such a key. (An entry under the empty key is taken for a
   local inhibitor by every later synchronisation, and added again.)
   */
  lemma SyncMirrors(before: seq<Inhibitor>, after: seq<Inhibitor>, entries: map<string, Option<Record>>)
    requires Synced(before, after, entries)
    ensures var keys := Parseable(entries);
      && ("" !in keys <==> Mirrors(after, keys) && Locals(after) == Locals(before))
      && ("" in keys ==> |Locals(after)| == |Locals(before)| + 1)
  {
    var keys := Parseable(entries);
    var kept := Kept(before, keys);
    var added := after[|kept|..];
    assert after == kept + added;
    KeptSplits(before, keys);
    if "" !in keys {
      AddedSplits(kept, added);
      JoinDistinct(RedisIds(kept), AllIds(added));
    } else {
      EmptyIsLocal(before, keys);
      SplitJoins(kept, added);
      OneEmpty(added);
    }
  }

  lemma {:induction false} EmptyIsLocal(all: seq<Inhibitor>, keys: set<string>)
    ensures "" !in RedisIds(all)
    ensures "" !in RedisIds(Kept(all, keys))
  {
    NoEmptyId(all);
    NoEmptyId(Kept(all, keys));
  }

  lemma {:induction false} NoEmptyId(all: seq<Inhibitor>)
    ensures "" !in RedisIds(all)
  {
    if all != [] {
      NoEmptyId(all[1..]);
    }
  }

  lemma JoinDistinct(a: seq<string>, b: seq<string>)
    requires Distinct(a) && Distinct(b) && forall k | k in b :: k !in a
    ensures Distinct(a + b)
  {
    var c := a + b;
    forall i, j | 0 <= i < j < |c| ensures c[i] != c[j] {
      if i < |a| <= j {
        assert c[i] in a && c[j] in b;
      }
    }
  }

  /** Among added entries with distinct ids, the one with the empty id is the only one taken for local. */
  lemma {:induction false} OneEmpty(added: seq<Inhibitor>)
    requires Distinct(AllIds(added))
    ensures |Locals(added)| == if "" in AllIds(added) then 1 else 0
    decreases |added|
  {
    if added != [] {
      var ids := AllIds(added);
      assert ids == [added[0].redisId] + AllIds(added[1..]);
      forall i, j | 0 <= i < j < |ids| - 1 ensures ids[1..][i] != ids[1..][j] {
        assert ids[i + 1] != ids[j + 1];
      }
      assert ids[1..] == AllIds(added[1..]);
      OneEmpty(added[1..]);
      if "" in AllIds(added[1..]) {
        assert ids[0] != "";
      }
    }
  }

  lemma HasId(added: seq<Inhibitor>)
    requires added != []
    ensures exists k :: k in AllIds(added)
  {
    assert AllIds(added)[0] in AllIds(added);
  }

  /**
   A second synchronisation with the same hash changes nothing (and so notifies
   nobody), again if and only if the empty string is not a parseable key.
   */
  lemma SecondSyncIsQuiet(before: seq<Inhibitor>, after: seq<Inhibitor>, again: seq<Inhibitor>,
                          entries: map<string, Option<Record>>)
    requires Synced(before, after, entries) && Synced(after, again, entries)
    ensures again == after <==> "" !in Parseable(entries)
  {
    var keys := Parseable(entries);
    SyncMirrors(before, after, entries);
    SyncMirrors(after, again, entries);
    if "" !in keys {
      KeptIsPart(after, keys);
      KeptSplits(after, keys);
      var kept := Kept(after, keys);
      assert kept == after;
      var added := again[|kept|..];
      if added != [] {
        HasId(added);
      }
      assert again == kept + added;
    }
  }

  /** A synchronisation changed the list exactly if it dropped or added something. */
  lemma ChangeShows(before: seq<Inhibitor>, after: seq<Inhibitor>, entries: map<string, Option<Record>>, next: nat)
    requires Synced(before, after, entries) && forall i | i in before :: i.handle < next
    requires var kept := Kept(before, Parseable(entries)); forall i | i in after[|kept|..] :: i.handle >= next
    ensures var keys := Parseable(entries); var kept := Kept(before, keys);
      && |kept| <= |before|
      && (after == before <==> |kept| == |before| && forall k | k in keys :: k in RedisIds(kept))
  {
    var keys := Parseable(entries);
    var kept := Kept(before, keys);
    var added := after[|kept|..];
    assert after == kept + added;
    KeptIsPart(before, keys);
    if added != [] {
      HasId(added);
      assert added[0] in added && added[0] in after;
    }
  }

  lemma NoIds()
    ensures AllIds([]) == [] && Distinct([])
  {
  }

  lemma AllIdsSnoc(added: seq<Inhibitor>, i: Inhibitor)
    ensures Distinct(AllIds(added + [i])) <==> Distinct(AllIds(added)) && i.redisId !in AllIds(added)
    ensures forall k :: k in AllIds(added + [i]) <==> k in AllIds(added) || k == i.redisId
  {
    assert AllIds(added + [i]) == AllIds(added) + [i.redisId];
    DistinctSnoc(AllIds(added), i.redisId);
  }

  /** A fresh handle joins the list. */
  lemma Enrolled(all: seq<Inhibitor>, i: Inhibitor)
    requires Identities(all, i.handle)
    ensures Identities(all + [i], i.handle + 1)
  {
  }

  lemma NothingKept(want: set<string>)
    ensures Kept([], want) == [] && RedisIds([]) == []
  {
  }

  /** One more element of the walk: kept if local, or if its id is wanted and not mirrored yet. */
  lemma KeptStep(all: seq<Inhibitor>, n: nat, want: set<string>)
    requires n < |all|
    ensures var kept := Kept(all[..n], want);
      && |kept| <= n
      && Kept(all[..n + 1], want)
           == if Local(all[n]) || (all[n].redisId in want && all[n].redisId !in RedisIds(kept)) then kept + [all[n]] else kept
  {
    assert all[..n + 1][..n] == all[..n] && all[..n + 1][n] == all[n];
    KeptSplits(all[..n], want);
    KeptIsPart(all[..n], want);
  }

  lemma Missing(want: map<string, Record>, keys: set<string>, kept: seq<Inhibitor>)
    requires forall k :: k in want <==> k in keys && k !in RedisIds(kept)
    ensures want != map[] <==> exists k | k in keys :: k !in RedisIds(kept)
  {
    if want != map[] {
      var id :| id in want;
    }
  }

  class Manager {
    /** Inhibitors held by open connections; always of blocking kind. */
    var connections: map<nat, Inhibitor>
    var manual: seq<Inhibitor>
    var nextHandle: nat

    ghost predicate Valid()
      reads this
    {
      && (forall c | c in connections :: connections[c].kind == Block && connections[c].conn == Some(c))
      && (forall i | i in manual :: i.conn.None?)
      && Identities(manual, nextHandle)
    }

    constructor ()
      ensures Valid() && connections == map[] && manual == []
    {
      connections, manual, nextHandle := map[], [], 0;
    }

    method AddInhibitor(who: string, what: string, why: string, kind: Kind) returns (i: Inhibitor)
      requires Valid()
      modifies this
      ensures Valid()
      ensures manual == old(manual) + [i] && connections == old(connections)
      ensures i == Inhibitor(i.handle, who, what, why, kind, "", None) && i !in old(manual)
    {
      i := Inhibitor(nextHandle, who, what, why, kind, "", None);
      manual := manual + [i];
      nextHandle := nextHandle + 1;
    }

    /** Removes the inhibitor with this identity, wherever it stands; the others keep content and order. */
    method RemoveInhibitor(x: Inhibitor)
      requires Valid()
      modifies this
      ensures Valid()
      ensures connections == if x.conn.Some? then old(connections) - {x.conn.value} else old(connections)
      ensures x !in old(manual) ==> manual == old(manual)
      ensures x in old(manual) ==> exists k | 0 <= k < |old(manual)| ::
        old(manual)[k] == x && manual == old(manual)[..k] + old(manual)[k + 1..]
      ensures x !in manual && (forall c | c in connections :: connections[c] != x)
    {
      if x.conn.Some? {
        connections := connections - {x.conn.value};
        return;
      }
      for k := 0 to |manual|
        invariant manual == old(manual) && nextHandle == old(nextHandle) && connections == old(connections)
        invariant x !in manual[..k]
      {
        if manual[k] == x {
          manual := manual[..k] + manual[k + 1..];
          return;
        }
      }
    }

    /** One connection opens: registered as blocking before its acknowledgement is sent. */
    method Connect(conn: nat)
      requires Valid() && conn !in connections
      modifies this
      ensures Valid() && manual == old(manual)
      ensures connections.Keys == old(connections.Keys) + {conn}
      ensures forall c | c in old(connections) :: connections[c] == old(connections)[c]
      ensures connections[conn].kind == Block && connections[conn].conn == Some(conn)
    {
      connections := connections[conn := Inhibitor(nextHandle, "connection-based", "connection-based",
                                                   "connection-based", Block, "", Some(conn))];
      nextHandle := nextHandle + 1;
    }

    method Disconnect(conn: nat)
      requires Valid()
      modifies this
      ensures Valid() && manual == old(manual) && connections == old(connections) - {conn}
    {
      connections := connections - {conn};
    }

    method HasBlockingInhibitors(t: Target) returns (blocked: bool)
      ensures blocked <==> (exists c | c in connections :: Blocks(connections[c], t)) || HasBlocking(manual, t)
    {
      var rest := connections.Keys;
      while rest != {}
        invariant rest <= connections.Keys
        invariant forall c | c in connections && c !in rest :: !Blocks(connections[c], t)
      {
        var c :| c in rest;
        if Blocks(connections[c], t) {
          return true;
        }
        rest := rest - {c};
      }
      for k := 0 to |manual|
        invariant !HasBlocking(manual[..k], t)
      {
        if Blocks(manual[k], t) {
          return true;
        }
        assert manual[..k + 1] == manual[..k] + [manual[k]];
      }
      assert manual[..|manual|] == manual;
      blocked := false;
    }

    /**
     A synchronisation with the hash; none if it could not be read, which changes
     nothing. A field whose value does not parse is `None`. True when the mirror changed,
     which is when listeners are notified. Entries already mirrored keep the content they
     were created with.
     */
    method SyncRedisInhibitors(hash: Option<map<string, Option<Record>>>) returns (changed: bool)
      requires Valid()
      modifies this
      ensures Valid() && connections == old(connections)
      ensures hash.None? ==> manual == old(manual)
      ensures hash.Some? ==> Synced(old(manual), manual, hash.value)
      ensures changed <==> manual != old(manual)
    {
      if hash.None? {
        return false;
      }
      changed := Apply(hash.value);
    }

    method Apply(entries: map<string, Option<Record>>) returns (changed: bool)
      requires Valid()
      modifies this`manual, this`nextHandle
      ensures Valid()
      ensures Synced(old(manual), manual, entries)
      ensures changed <==> manual != old(manual)
    {
      hide Kept, RedisIds, Distinct, AllIds, Describes, HasBlocking;
      var want;
      changed, want := DropUnwanted(entries);
      Missing(want, Parseable(entries), manual);
      if want != map[] {
        changed := true;
      }
      AddWanted(want);
      ChangeShows(old(manual), manual, entries, old(nextHandle));
    }

    /** Keeps the local and the wanted entries; `want` is left with the ids not yet mirrored. */
    method DropUnwanted(entries: map<string, Option<Record>>) returns (changed: bool, want: map<string, Record>)
      requires Valid()
      modifies this`manual
      ensures Valid()
      ensures manual == Kept(old(manual), Parseable(entries))
      ensures forall k :: k in want <==> k in Parseable(entries) && k !in RedisIds(manual)
      ensures forall k | k in want :: want[k] == entries[k].value
      ensures changed <==> |manual| < |old(manual)|
    {
      hide Kept, RedisIds, Keeps;
      want := map k | k in entries && entries[k].Some? :: entries[k].value;
      ghost var keys := Parseable(entries);
      changed := false;
      var remaining := [];
      NothingKept(keys);
      assert manual[..0] == [];
      for n := 0 to |manual|
        invariant manual == old(manual)
        invariant remaining == Kept(manual[..n], keys)
        invariant forall k :: k in want <==> k in keys && k !in RedisIds(remaining)
        invariant forall k | k in want :: want[k] == entries[k].value
        invariant changed <==> |remaining| < n
      {
        var i := manual[n];
        KeptStep(manual, n, keys);
        SplitSnoc(remaining, i);
        if i.redisId == "" {
          remaining := remaining + [i];
        } else if i.redisId in want {
          remaining := remaining + [i];
          want := want - {i.redisId};
        } else {
          changed := true;
        }
      }
      assert manual[..|manual|] == manual;
      KeptIdentities(manual, keys, nextHandle);
      KeptIsPart(manual, keys);
      manual := remaining;
    }

    /** Appends a fresh inhibitor for every remaining id, in whatever order the map yields them. */
    method AddWanted(wanted: map<string, Record>)
      requires Valid()
      modifies this`manual, this`nextHandle
      ensures Valid() && old(manual) <= manual
      ensures forall i | i in manual[|old(manual)|..] ::
        i.redisId in wanted && Describes(wanted[i.redisId], i) && i.handle >= old(nextHandle)
      ensures Distinct(AllIds(manual[|old(manual)|..]))
      ensures forall k :: k in AllIds(manual[|old(manual)|..]) <==> k in wanted
    {
      hide Distinct, AllIds, Identities;
      var want := wanted;
      NoIds();
      ghost var added: seq<Inhibitor> := [];
      while want != map[]
        invariant Valid() && manual == old(manual) + added && nextHandle >= old(nextHandle)
        invariant forall i | i in added ::
          i.redisId in wanted && Describes(wanted[i.redisId], i) && i.handle >= old(nextHandle)
        invariant Distinct(AllIds(added))
        invariant forall k | k in want :: k in wanted && want[k] == wanted[k]
        invariant forall k :: k in AllIds(added) <==> k in wanted && k !in want
        decreases want.Keys
      {
        var id :| id in want;
        var r := want[id];
        var i := Inhibitor(nextHandle, r.who, r.what, r.why, KindOf(r.kind), id, None);
        AllIdsSnoc(added, i);
        Enrolled(manual, i);
        added := added + [i];
        manual := manual + [i];
        nextHandle := nextHandle + 1;
        want := want - {id};
      }
      assert manual[|old(manual)|..] == added;
    }
  }
}
