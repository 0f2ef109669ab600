/** An in-memory model of the Redis Streams commands the pipeline issues.
    A stream is its sequence of entries (an entry's id is its position) and
    its consumer groups; a group remembers how many entries it has handed
    out ("last delivered") and its pending entries list. XACK only removes
    from the pending list: entries are never removed, so XLEN never drops. */
module Redis {
  import opened Wrappers

  type Fields = map<string, string>

  /** One pending entry: the consumer holding it, how many times it was
      delivered, and milliseconds since the last delivery. */
  datatype PendingEntry = PendingEntry(consumer: string, deliveries: nat, idle: nat)

  datatype Group = Group(delivered: nat, pending: map<nat, PendingEntry>)

  datatype Stream = Stream(entries: seq<Fields>, groups: map<string, Group>) {
    predicate Valid() {
      forall g :: g in groups ==>
        (groups[g].delivered <= |entries|
         && forall id :: id in groups[g].pending ==> id < groups[g].delivered)
    }
  }

  /** A delivered message: the entry id and its fields. */
  datatype Message = Message(id: nat, fields: Fields)

  /** One row of XPENDING's extended form. */
  datatype PendingItem = PendingItem(id: nat, consumer: string, idle: nat, deliveries: nat)

  /** The commands the pipeline sends; a (command, key) pair in the store's
      fault set makes that command fail on that key (server or network
      error) without any effect. */
  datatype Command = XAdd | XGroupCreate | XReadGroup | XAck | XPending | XLen | XRange | XClaim | Del

  const CONNECTION_ERROR := "ConnectionError"
  const BUSYGROUP := "BUSYGROUP Consumer Group name already exists"
  const NOGROUP := "NOGROUP No such key or consumer group"

  predicate AllVisible(msgs: seq<Message>, lo: nat) {
    forall k :: 0 <= k < |msgs| ==> msgs[k].id == lo + k
  }

  /** Entries lo..hi-1 of a stream as messages. */
  function Slice(entries: seq<Fields>, lo: nat, hi: nat): (r: seq<Message>)
    requires lo <= hi <= |entries|
    ensures |r| == hi - lo
    ensures forall k :: 0 <= k < |r| ==> r[k] == Message(lo + k, entries[lo + k])
    decreases hi - lo
  {
    if lo == hi then [] else [Message(lo, entries[lo])] + Slice(entries, lo + 1, hi)
  }

  /** The pending list after handing ids lo..hi-1 to `consumer`. */
  function MarkPending(p: map<nat, PendingEntry>, lo: nat, hi: nat, consumer: string): (r: map<nat, PendingEntry>)
    requires lo <= hi
    ensures forall id :: id in r <==> id in p || lo <= id < hi
    ensures forall id :: id in r ==> r[id] == if lo <= id < hi then PendingEntry(consumer, 1, 0) else p[id]
    decreases hi - lo
  {
    if lo == hi then p else MarkPending(p[lo := PendingEntry(consumer, 1, 0)], lo + 1, hi, consumer)
  }

  /** The members of `ids` below n, in ascending order. */
  function IdsBelow(ids: set<nat>, n: nat): (r: seq<nat>)
    ensures forall x :: x in r <==> x in ids && x < n
    ensures forall i, j :: 0 <= i < j < |r| ==> r[i] < r[j]
    ensures forall i :: 0 <= i < |r| ==> r[i] < n
  {
    if n == 0 then [] else IdsBelow(ids, n - 1) + (if n - 1 in ids then [n - 1] else [])
  }

  datatype Store = Store(streams: map<string, Stream>, faults: set<(Command, string)>, acks: seq<(string, nat)>) {

    predicate Valid() {
      forall key :: key in streams ==> streams[key].Valid()
    }

    predicate Fails(c: Command, key: string) {
      (c, key) in faults
    }

    predicate HasGroup(key: string, g: string) {
      key in streams && g in streams[key].groups
    }

    /** Entries of a stream; a missing key is an empty stream. */
    function Entries(key: string): seq<Fields> {
      if key in streams then streams[key].entries else []
    }

    /** XLEN key. */
    function Length(key: string): Result<nat> {
      if Fails(XLen, key) then Err(CONNECTION_ERROR) else Ok(|Entries(key)|)
    }

    /** XADD key * field value ...: appends one entry, creating the stream
        when it is missing, and replies with the new entry's id. */
    function Add(key: string, f: Fields): (Store, Result<nat>) {
      if Fails(XAdd, key) then (this, Err(CONNECTION_ERROR))
      else
        var st := if key in streams then streams[key] else Stream([], map[]);
        (this.(streams := streams[key := st.(entries := st.entries + [f])]), Ok(|st.entries|))
    }

    /** XGROUP CREATE key g 0 MKSTREAM: a new group that has delivered
        nothing; BUSYGROUP when the group exists. */
    function CreateGroup(key: string, g: string): (Store, Result<()>) {
      if Fails(XGroupCreate, key) then (this, Err(CONNECTION_ERROR))
      else if HasGroup(key, g) then (this, Err(BUSYGROUP))
      else
        var st := if key in streams then streams[key] else Stream([], map[]);
        (this.(streams := streams[key := st.(groups := st.groups[g := Group(0, map[])])]), Ok(()))
    }

    /** XREADGROUP GROUP g consumer COUNT count STREAMS key >: hands out up
        to `count` never-delivered entries, oldest first, and records each
        as pending for `consumer` with one delivery. */
    function ReadGroup(key: string, g: string, consumer: string, count: nat): (Store, Result<seq<Message>>) {
      if Fails(XReadGroup, key) then (this, Err(CONNECTION_ERROR))
      else if !HasGroup(key, g) then (this, Err(NOGROUP))
      else
        var st := streams[key];
        var grp := st.groups[g];
        if grp.delivered >= |st.entries| then (this, Ok([]))
        else
          var hi := if grp.delivered + count <= |st.entries| then grp.delivered + count else |st.entries|;
          var grp' := Group(hi, MarkPending(grp.pending, grp.delivered, hi, consumer));
          (this.(streams := streams[key := st.(groups := st.groups[g := grp'])]),
           Ok(Slice(st.entries, grp.delivered, hi)))
    }

    /** XACK key g id: removes the id from the pending list (when it is
        there) and replies with the number removed; entries stay. */
    function Ack(key: string, g: string, id: nat): (Store, Result<nat>) {
      if Fails(XAck, key) then (this, Err(CONNECTION_ERROR))
      else
        var logged := this.(acks := acks + [(key, id)]);
        if HasGroup(key, g) && id in streams[key].groups[g].pending then
          var st := streams[key];
          var grp := st.groups[g];
          (logged.(streams := streams[key := st.(groups := st.groups[g := grp.(pending := grp.pending - {id})])]), Ok(1))
        else (logged, Ok(0))
    }

    /** XPENDING key g (summary form): the number of pending entries. */
    function PendingCount(key: string, g: string): Result<nat> {
      if Fails(XPending, key) then Err(CONNECTION_ERROR)
      else if !HasGroup(key, g) then Err(NOGROUP)
      else Ok(|streams[key].groups[g].pending|)
    }

    /** XPENDING key g - + count: the first `count` pending entries by id. */
    function PendingRange(key: string, g: string, count: nat): (r: Result<seq<PendingItem>>)
      ensures r.Ok? ==> |r.value| <= count
    {
      if Fails(XPending, key) then Err(CONNECTION_ERROR)
      else if !HasGroup(key, g) then Err(NOGROUP)
      else
        var grp := streams[key].groups[g];
        var pending := grp.pending;
        var ids := IdsBelow(pending.Keys, grp.delivered);
        var n := if count <= |ids| then count else |ids|;
        Ok(seq(n, k requires 0 <= k < n =>
          PendingItem(ids[k], pending[ids[k]].consumer, pending[ids[k]].idle, pending[ids[k]].deliveries)))
    }

    /** XRANGE key id id: the entry with that id, if the stream holds it. */
    function Range(key: string, id: nat): Result<Option<Fields>> {
      if Fails(XRange, key) then Err(CONNECTION_ERROR)
      else if id < |Entries(key)| then Ok(Some(Entries(key)[id]))
      else Ok(None)
    }

    /** XCLAIM key g consumer minIdle id: hands a pending entry idle for at
        least minIdle to `consumer`, resetting its idle time and counting one
        more delivery; replies whether it was claimed. */
    function Claim(key: string, g: string, consumer: string, minIdle: nat, id: nat): (Store, Result<bool>) {
      if Fails(XClaim, key) then (this, Err(CONNECTION_ERROR))
      else if !HasGroup(key, g) then (this, Err(NOGROUP))
      else
        var st := streams[key];
        var grp := st.groups[g];
        if id in grp.pending && grp.pending[id].idle >= minIdle then
          var e := grp.pending[id];
          var grp' := grp.(pending := grp.pending[id := PendingEntry(consumer, e.deliveries + 1, 0)]);
          (this.(streams := streams[key := st.(groups := st.groups[g := grp'])]), Ok(true))
        else (this, Ok(false))
    }

    /** DEL key: drops the stream with its groups. */
    function Delete(key: string): (Store, Result<nat>) {
      if Fails(Del, key) then (this, Err(CONNECTION_ERROR))
      else if key in streams then (this.(streams := streams - {key}), Ok(1))
      else (this, Ok(0))
    }

    /** The pending list of a group, empty when the group is missing. */
    function Pending(key: string, g: string): map<nat, PendingEntry> {
      if HasGroup(key, g) then streams[key].groups[g].pending else map[]
    }

    function Delivered(key: string, g: string): nat {
      if HasGroup(key, g) then streams[key].groups[g].delivered else 0
    }
  }

  // ---- properties of the commands ----

  /** XADD appends exactly the given entry at the end and changes no group. */
  lemma AddAppends(s: Store, key: string, f: Fields)
    requires !s.Fails(XAdd, key)
    ensures var (s', r) := s.Add(key, f);
      r == Ok(|s.Entries(key)|) && s'.Entries(key) == s.Entries(key) + [f]
      && (forall k :: k != key ==> s'.Entries(k) == s.Entries(k))
      && (forall k, g :: s'.Pending(k, g) == s.Pending(k, g))
      && (forall k, g :: s'.HasGroup(k, g) == s.HasGroup(k, g))
      && s'.acks == s.acks && s'.faults == s.faults
  {
  }

  /** A second XGROUP CREATE of the same group replies BUSYGROUP and changes
      nothing. */
  lemma CreateGroupTwice(s: Store, key: string, g: string)
    requires s.CreateGroup(key, g).1.Ok?
    ensures var s1 := s.CreateGroup(key, g).0;
      s1.CreateGroup(key, g) == (s1, Err(BUSYGROUP))
  {
  }

  /** XREADGROUP hands out at most `count` entries: the oldest never
      delivered ones, in id order, each now pending for the reader; entries
      and other pending ids are unchanged. */
  lemma ReadGroupBatch(s: Store, key: string, g: string, consumer: string, count: nat)
    requires s.Valid() && s.ReadGroup(key, g, consumer, count).1.Ok?
    ensures |s.ReadGroup(key, g, consumer, count).1.value| <= count
    ensures AllVisible(s.ReadGroup(key, g, consumer, count).1.value, s.Delivered(key, g))
    ensures s.Delivered(key, g) + |s.ReadGroup(key, g, consumer, count).1.value| <= |s.Entries(key)|
    ensures var r := s.ReadGroup(key, g, consumer, count).1.value;
      forall k :: 0 <= k < |r| ==> r[k].fields == s.Entries(key)[s.Delivered(key, g) + k]
    ensures s.ReadGroup(key, g, consumer, count).0.Delivered(key, g)
      == s.Delivered(key, g) + |s.ReadGroup(key, g, consumer, count).1.value|
    ensures count > 0 ==>
      (s.ReadGroup(key, g, consumer, count).1.value == [] <==> s.Delivered(key, g) == |s.Entries(key)|)
    ensures |s.ReadGroup(key, g, consumer, count).1.value| < count
      ==> s.Delivered(key, g) + |s.ReadGroup(key, g, consumer, count).1.value| == |s.Entries(key)|
  {
    assert s.streams[key].Valid();
  }

  /** ... every handed-out entry is now pending for the reader, and earlier
      pending entries are untouched; nothing else in the store changes. */
  lemma ReadGroupPending(s: Store, key: string, g: string, consumer: string, count: nat)
    requires s.Valid() && s.ReadGroup(key, g, consumer, count).1.Ok?
    ensures var (s', r) := s.ReadGroup(key, g, consumer, count);
      var lo := s.Delivered(key, g);
      var p, p' := s.Pending(key, g), s'.Pending(key, g);
      (forall id :: id in p' <==> id in p || lo <= id < lo + |r.value|)
      && (forall id :: id in p ==> id < lo && p'[id] == p[id])
      && (forall id :: lo <= id < lo + |r.value| ==> p'[id] == PendingEntry(consumer, 1, 0))
  {
    assert s.streams[key].Valid();
    ReadGroupBatch(s, key, g, consumer, count);
  }

  lemma ReadGroupFrame(s: Store, key: string, g: string, consumer: string, count: nat)
    ensures var s' := s.ReadGroup(key, g, consumer, count).0;
      (forall k :: s'.Entries(k) == s.Entries(k))
      && (forall k, h :: (k, h) != (key, g) ==> s'.Pending(k, h) == s.Pending(k, h))
      && s'.acks == s.acks && s'.faults == s.faults
  {
  }

  /** The extended XPENDING lists pending ids only, ascending, each with its
      holder, idle time and delivery count, at most `count` of them; when it
      lists fewer, it has listed every pending id. */
  lemma PendingRangeLists(s: Store, key: string, g: string, count: nat)
    requires s.Valid() && s.PendingRange(key, g, count).Ok?
    ensures |s.PendingRange(key, g, count).value| <= count
    ensures var items := s.PendingRange(key, g, count).value;
      forall i, j :: 0 <= i < j < |items| ==> items[i].id < items[j].id
    ensures var items := s.PendingRange(key, g, count).value;
      var p := s.Pending(key, g);
      forall i :: 0 <= i < |items| ==> items[i].id in p && Describes(items[i], p[items[i].id])
    ensures var items := s.PendingRange(key, g, count).value;
      |items| < count ==> forall id :: id in s.Pending(key, g) ==> exists i :: 0 <= i < |items| && items[i].id == id
  {
    var grp := s.streams[key].groups[g];
    assert s.streams[key].Valid();
    var ids := IdsBelow(grp.pending.Keys, grp.delivered);
    var items := s.PendingRange(key, g, count).value;
    assert forall i :: 0 <= i < |items| ==> items[i].id == ids[i];
    if |items| < count {
      forall id | id in grp.pending ensures exists i :: 0 <= i < |items| && items[i].id == id {
        assert id in ids;
        var i :| 0 <= i < |ids| && ids[i] == id;
        assert items[i].id == id;
      }
    }
  }

  predicate Describes(item: PendingItem, e: PendingEntry) {
    item.consumer == e.consumer && item.idle == e.idle && item.deliveries == e.deliveries
  }

  /** XACK never changes XLEN: acknowledged entries stay in the stream. */
  lemma AckKeepsLength(s: Store, key: string, g: string, id: nat, k: string)
    ensures s.Ack(key, g, id).0.Entries(k) == s.Entries(k)
  {
  }

  /** A successful XACK logs the call and removes exactly that id from that
      group's pending list. */
  lemma AckRemoves(s: Store, key: string, g: string, id: nat)
    requires !s.Fails(XAck, key)
    ensures var s' := s.Ack(key, g, id).0;
      s'.acks == s.acks + [(key, id)]
      && s'.Pending(key, g) == s.Pending(key, g) - {id}
      && (forall k, h :: (k, h) != (key, g) ==> s'.Pending(k, h) == s.Pending(k, h))
  {
  }

  /** XCLAIM of an entry idle for at least minIdle moves it to the claimer and
      touches no other pending entry. */
  lemma ClaimMoves(s: Store, key: string, g: string, consumer: string, minIdle: nat, id: nat)
    requires s.Claim(key, g, consumer, minIdle, id).1.Ok?
    ensures var (s', r) := s.Claim(key, g, consumer, minIdle, id);
      var p := s.Pending(key, g);
      (r.value <==> id in p && p[id].idle >= minIdle)
      && s'.Pending(key, g).Keys == p.Keys
      && (r.value ==> s'.Pending(key, g)[id] == PendingEntry(consumer, p[id].deliveries + 1, 0))
      && (forall i :: i in p && (i != id || !r.value) ==> s'.Pending(key, g)[i] == p[i])
  {
  }

  /** XCLAIM touches one group's pending list only. */
  lemma ClaimFrame(s: Store, key: string, g: string, consumer: string, minIdle: nat, id: nat)
    ensures var s' := s.Claim(key, g, consumer, minIdle, id).0;
      s'.faults == s.faults && s'.acks == s.acks
      && (s.HasGroup(key, g) ==> s'.HasGroup(key, g))
      && (forall k :: s'.Entries(k) == s.Entries(k))
      && (forall k, h :: (k, h) != (key, g) ==> s'.Pending(k, h) == s.Pending(k, h))
  {
  }

  // Every command keeps the store well formed.

  lemma AddKeepsValid(s: Store, key: string, f: Fields)
    requires s.Valid()
    ensures s.Add(key, f).0.Valid()
  {
    var s' := s.Add(key, f).0;
    forall k | k in s'.streams ensures s'.streams[k].Valid() {
      if k in s.streams { assert s.streams[k].Valid(); }
    }
  }

  lemma CreateGroupKeepsValid(s: Store, key: string, g: string)
    requires s.Valid()
    ensures s.CreateGroup(key, g).0.Valid()
  {
    var s' := s.CreateGroup(key, g).0;
    forall k | k in s'.streams ensures s'.streams[k].Valid() {
      if k in s.streams { assert s.streams[k].Valid(); }
    }
  }

  lemma ReadGroupKeepsValid(s: Store, key: string, g: string, consumer: string, count: nat)
    requires s.Valid()
    ensures s.ReadGroup(key, g, consumer, count).0.Valid()
  {
    var s' := s.ReadGroup(key, g, consumer, count).0;
    forall k | k in s'.streams ensures s'.streams[k].Valid() {
      assert s.streams[k].Valid();
    }
  }

  lemma AckKeepsValid(s: Store, key: string, g: string, id: nat)
    requires s.Valid()
    ensures s.Ack(key, g, id).0.Valid()
  {
    var s' := s.Ack(key, g, id).0;
    forall k | k in s'.streams ensures s'.streams[k].Valid() {
      assert s.streams[k].Valid();
    }
  }

  lemma ClaimKeepsValid(s: Store, key: string, g: string, consumer: string, minIdle: nat, id: nat)
    requires s.Valid()
    ensures s.Claim(key, g, consumer, minIdle, id).0.Valid()
  {
    var s' := s.Claim(key, g, consumer, minIdle, id).0;
    forall k | k in s'.streams ensures s'.streams[k].Valid() {
      assert s.streams[k].Valid();
    }
  }

  lemma DeleteKeepsValid(s: Store, key: string)
    requires s.Valid()
    ensures s.Delete(key).0.Valid()
  {
  }
}
