/** What whole runs of the memory store mean for one domain, one key and one attribute. */
module StoreTheorems {
  import opened Collections
  import opened SnapshotStore

  // ----- What one operation does to a domain -----------------------------------------------------

  predicate Touches(op: StoreOp, name: string) {
    op.ClearAll? || ((op.WriteBody? || op.SetField?) && op.name == name)
  }

  lemma SetFieldIsAfterSet(r: Root, name: string, o: SetOp)
    ensures Files(StoreStep(r, SetField(name, o)), name) == AfterSet(Files(r, name), o)
  {}

  lemma WriteBodyIsAfterWrite(r: Root, name: string, at: Stamp, body: Body, size: nat)
    ensures Files(StoreStep(r, WriteBody(name, at, body, size)), name) ==
      AfterWrite(Files(r, name), at, File(body, size))
  {}

  lemma OtherDomainsStay(r: Root, op: StoreOp, name: string)
    requires !Touches(op, name)
    ensures Files(StoreStep(r, op), name) == Files(r, name)
  {
    match op
    case WriteBody(_, _, _, _) =>
    case SetField(_, _) =>
    case AttrsPut(_, _, _) =>
    case AttrsDrop(_, _) =>
  }

  lemma ClearEmpties(r: Root, name: string)
    ensures Files(StoreStep(r, ClearAll), name) == map[] && AttrFields(StoreStep(r, ClearAll)) == map[]
    ensures StoreStep(r, ClearAll).sizeBytes == 0
  {}

  // ----- Key mode of a store -----------------------------------------------------------------------

  /** The SetKey operations on one domain, in order. */
  function SetsOn(ops: seq<StoreOp>, name: string): seq<SetOp> {
    if ops == [] then []
    else
      var op := ops[|ops| - 1];
      SetsOn(ops[..|ops| - 1], name) + if op.SetField? && op.name == name then [op.op] else []
  }

  /** The domain is only changed by SetKey; all else may happen to the others. */
  ghost predicate OnlySets(ops: seq<StoreOp>, name: string) {
    forall i :: 0 <= i < |ops| && Touches(ops[i], name) ==> ops[i].SetField?
  }

  lemma {:induction false} DomainIsItsSets(r: Root, ops: seq<StoreOp>, name: string)
    requires OnlySets(ops, name)
    ensures Files(StoreRun(r, ops), name) == AfterSets(Files(r, name), SetsOn(ops, name))
  {
    if ops != [] {
      var n := |ops| - 1;
      var before, op := ops[..n], ops[n];
      DomainIsItsSets(r, before, name);
      if Touches(op, name) {
        SetFieldIsAfterSet(StoreRun(r, before), name, op.op);
        AfterSetsStep(Files(r, name), SetsOn(before, name), op.op);
      } else {
        OtherDomainsStay(StoreRun(r, before), op, name);
        assert SetsOn(ops, name) == SetsOn(before, name);
      }
    }
  }

  lemma AfterSetsStep(dir: Dir, ops: seq<SetOp>, o: SetOp)
    ensures AfterSets(dir, ops + [o]) == AfterSet(AfterSets(dir, ops), o)
  {
    assert (ops + [o])[..|ops|] == ops;
  }

  /** Over every run, whatever happens to other domains and attributes, a domain changed by
      SetKey under a strictly increasing positive clock reads as a plain map. */
  lemma StoreRefinesMap(r: Root, ops: seq<StoreOp>, name: string)
    requires OnlySets(ops, name) && ClockOk(Files(r, name), SetsOn(ops, name))
    ensures Fields(Files(StoreRun(r, ops), name)) == Replay(Fields(Files(r, name)), SetsOn(ops, name))
  {
    DomainIsItsSets(r, ops, name);
    KeyModeRefinesMap(Files(r, name), SetsOn(ops, name));
  }

  function Lookup(m: map<string, Value>, key: string): Option<Value> {
    if key in m then Some(m[key]) else None
  }

  /** Operation i is the last to set the key. */
  ghost predicate SetLast(ops: seq<SetOp>, i: nat, key: string) {
    i < |ops| && ops[i].key == key && forall j :: i < j < |ops| ==> ops[j].key != key
  }

  /** The plain map has for each key the last value set ... */
  lemma {:induction false} ReplayIsLast(m: map<string, Value>, ops: seq<SetOp>, i: nat, key: string)
    requires SetLast(ops, i, key)
    ensures Lookup(Replay(m, ops), key) == Some(ops[i].value)
  {
    var n := |ops| - 1;
    if i < n {
      assert ops[n].key != key;
      ReplayIsLast(m, ops[..n], i, key);
    }
  }

  /** ... or what was there before. */
  lemma {:induction false} ReplayLeavesOthers(m: map<string, Value>, ops: seq<SetOp>, key: string)
    requires forall i :: 0 <= i < |ops| ==> ops[i].key != key
    ensures Lookup(Replay(m, ops), key) == Lookup(m, key)
  {
    if ops != [] { ReplayLeavesOthers(m, ops[..|ops| - 1], key); }
  }

  /** So what GetKey reads after a run is the last value set for the key. */
  lemma GetKeyReadsLastSet(r: Root, ops: seq<StoreOp>, name: string, i: nat, key: string)
    requires OnlySets(ops, name) && ClockOk(Files(r, name), SetsOn(ops, name)) && SetLast(SetsOn(ops, name), i, key)
    ensures Lookup(Fields(Files(StoreRun(r, ops), name)), key) == Some(SetsOn(ops, name)[i].value)
  {
    StoreRefinesMap(r, ops, name);
    ReplayIsLast(Fields(Files(r, name)), SetsOn(ops, name), i, key);
  }

  /** Without a positive snapshot, or with a newest one that is no object, a domain has no keys. */
  lemma NoObjectNoFields(dir: Dir)
    ensures (forall m :: m in dir ==> m <= 0) ==> Fields(dir) == map[]
    ensures forall ns :: IsNewest(dir, ns) && dir[ns].body.Other? ==> Fields(dir) == map[]
    ensures forall ns :: IsNewest(dir, ns) && dir[ns].body.Keyed? ==> Fields(dir) == dir[ns].body.fields
  {}

  // ----- Written snapshots of a store ------------------------------------------------------------------

  /** The Write operations on one domain, in order. */
  function WritesOn(ops: seq<StoreOp>, name: string): seq<Write> {
    if ops == [] then []
    else
      var op := ops[|ops| - 1];
      WritesOn(ops[..|ops| - 1], name) +
      if op.WriteBody? && op.name == name then [Write(op.at, File(op.body, op.size))] else []
  }

  ghost predicate OnlyWrites(ops: seq<StoreOp>, name: string) {
    forall i :: 0 <= i < |ops| && Touches(ops[i], name) ==> ops[i].WriteBody?
  }

  /** Over every run, a domain that started empty and is changed by Write holds what retention
      leaves of its writes; so all that is proved of runs of writes holds of the store. */
  lemma {:induction false} DomainIsItsWrites(r: Root, ops: seq<StoreOp>, name: string)
    requires OnlyWrites(ops, name) && Files(r, name) == map[]
    ensures Files(StoreRun(r, ops), name) == Written(WritesOn(ops, name))
  {
    if ops != [] {
      var n := |ops| - 1;
      var before, op := ops[..n], ops[n];
      DomainIsItsWrites(r, before, name);
      if Touches(op, name) {
        WriteBodyIsAfterWrite(StoreRun(r, before), name, op.at, op.body, op.size);
        WrittenOneMore(WritesOn(before, name), Write(op.at, File(op.body, op.size)));
      } else {
        OtherDomainsStay(StoreRun(r, before), op, name);
        assert WritesOn(ops, name) == WritesOn(before, name);
      }
    }
  }

  lemma WrittenOneMore(ws: seq<Write>, w: Write)
    ensures Written(ws + [w]) == AfterWrite(Written(ws), w.at, w.file)
  {
    assert (ws + [w])[..|ws|] == ws;
  }

  // ----- Attributes -------------------------------------------------------------------------------------

  /** What the operations say about one attribute. */
  function AttrAfter(start: Option<Value>, ops: seq<StoreOp>, key: string): Option<Value> {
    if ops == [] then start
    else
      match ops[|ops| - 1]
      case AttrsPut(k, value, _) => if k == key then Some(value) else AttrAfter(start, ops[..|ops| - 1], key)
      case AttrsDrop(k, _) => if k == key then None else AttrAfter(start, ops[..|ops| - 1], key)
      case ClearAll => None
      case _ => AttrAfter(start, ops[..|ops| - 1], key)
  }

  /** Over every run each attribute has the value last set, unless deleted or cleared since. */
  lemma {:induction false} AttrsRefineMap(r: Root, ops: seq<StoreOp>, key: string)
    ensures Lookup(AttrFields(StoreRun(r, ops)), key) == AttrAfter(Lookup(AttrFields(r), key), ops, key)
  {
    if ops != [] {
      var n := |ops| - 1;
      AttrsRefineMap(r, ops[..n], key);
      AttrStep(StoreRun(r, ops[..n]), ops[n], key);
    }
  }

  lemma AttrStep(r: Root, op: StoreOp, key: string)
    ensures Lookup(AttrFields(StoreStep(r, op)), key) ==
      if op.ClearAll? then None
      else if op.AttrsPut? && op.key == key then Some(op.value)
      else if op.AttrsDrop? && op.key == key then None
      else Lookup(AttrFields(r), key)
  {
    match op
    case WriteBody(_, _, _, _) =>
    case SetField(_, _) =>
    case AttrsPut(_, _, _) =>
    case AttrsDrop(_, _) =>
    case ClearAll =>
  }

  // ----- Buckets ----------------------------------------------------------------------------------------

  /** Pruning keeps, unchanged, what is at most 90 days old with nothing newer in its bucket. */
  lemma RetainedMeans(dir: Dir, now: Stamp, ns: Stamp)
    ensures ns in Retained(dir, now) <==>
      && ns in dir && now - ns <= 7_776_000_000_000_000
      && !exists m :: m in dir && m > ns && BucketOf(now, m) == BucketOf(now, ns)
    ensures ns in Retained(dir, now) ==> Retained(dir, now)[ns] == dir[ns]
  {
    if ns in dir && now - ns <= 7_776_000_000_000_000 {
      assert !TooOld(now, ns) && forall m: Stamp :: m > ns ==> !TooOld(now, m);
    }
  }

  /** Two snapshots share a bucket exactly if both are at most an hour old and in one five-minute
      slot of age, or both up to a week and in one hour, or both older and in one day; what is
      stamped in the future counts as new. */
  lemma BucketMeans(now: Stamp, a: Stamp, b: Stamp)
    ensures BucketOf(now, a) == BucketOf(now, b) <==>
      var x, y := if now < a then 0 else now - a, if now < b then 0 else now - b;
      || (x <= 3600_000_000_000 && y <= 3600_000_000_000 && x / 300_000_000_000 == y / 300_000_000_000)
      || (3600_000_000_000 < x <= 604800_000_000_000 && 3600_000_000_000 < y <= 604800_000_000_000 &&
          x / 3600_000_000_000 == y / 3600_000_000_000)
      || (x > 604800_000_000_000 && y > 604800_000_000_000 && x / 86400_000_000_000 == y / 86400_000_000_000)
  {}
}
