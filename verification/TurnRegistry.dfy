/** The idempotent registry of model turns (openclaw-plugin/src/bridge.ts:2589-2646). */
module TurnRegistry {
  import opened Wrappers

  const MAX_MODEL_TURN_RECORDS := 256
  const MODEL_TURN_TOMBSTONE_MS := 600_000

  datatype TurnState = Active | Draining | Terminal

  /** The value of one record; `owner` stands for the identity of the record object. */
  datatype Turn = Turn(owner: nat, turnId: string, digest: string, state: TurnState, expiresAt: Option<int>)

  datatype ReserveError = Conflict | AlreadySettled | InProgress | RegistryFull

  /** The registry after a reservation, and the error that refused it, if any. */
  datatype Reservation = Reservation(turns: seq<Turn>, refusal: Option<ReserveError>)

  predicate Expired(t: Turn, now: int) {
    t.state == Terminal && t.expiresAt.Some? && t.expiresAt.value <= now
  }

  /** Drops every expired tombstone, keeping the insertion order. */
  function Sweep(turns: seq<Turn>, now: int): (r: seq<Turn>)
    ensures |r| <= |turns|
    ensures forall t :: t in r <==> t in turns && !Expired(t, now)
  {
    if turns == [] then []
    else
      var front := Sweep(turns[..|turns| - 1], now);
      var last := turns[|turns| - 1];
      if Expired(last, now) then front else front + [last]
  }

  /** The index of the oldest record with a property, or the length. */
  function FindTurn(turns: seq<Turn>, turnId: string): (i: nat)
    ensures i <= |turns| && (i < |turns| ==> turns[i].turnId == turnId)
    ensures forall j | 0 <= j < i :: turns[j].turnId != turnId
  {
    if turns == [] then 0 else if turns[0].turnId == turnId then 0 else 1 + FindTurn(turns[1..], turnId)
  }

  function OldestTerminal(turns: seq<Turn>): (i: nat)
    ensures i <= |turns| && (i < |turns| ==> turns[i].state == Terminal)
    ensures forall j | 0 <= j < i :: turns[j].state != Terminal
  {
    if turns == [] then 0 else if turns[0].state == Terminal then 0 else 1 + OldestTerminal(turns[1..])
  }

  function DropAt<T>(s: seq<T>, i: nat): (r: seq<T>)
    requires i < |s|
    ensures |r| == |s| - 1
    ensures forall j | 0 <= j < |r| :: r[j] == if j < i then s[j] else s[j + 1]
    ensures forall x | x in r :: x in s
    ensures forall x | x in s :: x in r || x == s[i]
  {
    assert forall x | x in s :: exists j :: 0 <= j < |s| && s[j] == x;
    var r := s[..i] + s[i + 1..];
    assert forall j | 0 <= j < |s| && j != i :: s[j] == r[if j < i then j else j - 1];
    r
  }

  /** Makes room for one more record by evicting the oldest tombstones. */
  function MakeRoom(turns: seq<Turn>): (r: Option<seq<Turn>>)
    ensures r.Some? ==> |r.value| < MAX_MODEL_TURN_RECORDS
    ensures r.Some? ==> forall t | t in r.value :: t in turns
    ensures r.Some? ==> forall t | t in turns && t !in r.value :: t.state == Terminal && |turns| >= MAX_MODEL_TURN_RECORDS
    decreases |turns|
  {
    if |turns| < MAX_MODEL_TURN_RECORDS then Some(turns)
    else
      var i := OldestTerminal(turns);
      if i == |turns| then None else MakeRoom(DropAt(turns, i))
  }

  function Reserve(turns: seq<Turn>, owner: nat, turnId: string, digest: string, now: int): Reservation {
    var kept := Sweep(turns, now);
    var i := FindTurn(kept, turnId);
    if i < |kept| then
      Reservation(kept, Some(if kept[i].digest != digest then Conflict
                             else if kept[i].state == Terminal then AlreadySettled else InProgress))
    else
      match MakeRoom(kept)
      case None => Reservation(kept, Some(RegistryFull))
      case Some(room) => Reservation(room + [Turn(owner, turnId, digest, Active, None)], None)
  }

  function Completed(t: Turn, now: int): Turn {
    if t.state == Terminal then t else t.(state := Terminal, expiresAt := Some(now + MODEL_TURN_TOMBSTONE_MS))
  }

  // ---- What the registry keeps --------------------------------------------------------------

  ghost predicate DistinctTurns(turns: seq<Turn>) {
    forall i, j | 0 <= i < j < |turns| :: turns[i].turnId != turns[j].turnId && turns[i].owner != turns[j].owner
  }

  ghost predicate Stamped(t: Turn) {
    t.state == Terminal <==> t.expiresAt.Some?
  }

  /** At most 256 records, one per turn id and per owner; exactly the tombstones carry an expiry. */
  ghost predicate RegistryOk(turns: seq<Turn>) {
    |turns| <= MAX_MODEL_TURN_RECORDS && DistinctTurns(turns) && forall t | t in turns :: Stamped(t)
  }

  lemma {:induction false} SweepDistinct(turns: seq<Turn>, now: int)
    requires DistinctTurns(turns)
    ensures DistinctTurns(Sweep(turns, now))
  {
    if turns != [] {
      var front, last := turns[..|turns| - 1], turns[|turns| - 1];
      SweepDistinct(front, now);
      var kept := Sweep(front, now);
      forall j | 0 <= j < |kept|
        ensures kept[j].turnId != last.turnId && kept[j].owner != last.owner
      {
        assert kept[j] in front;
      }
    }
  }

  lemma DropDistinct(turns: seq<Turn>, i: nat)
    requires DistinctTurns(turns) && i < |turns|
    ensures DistinctTurns(DropAt(turns, i))
  {
    var r := DropAt(turns, i);
    assert forall j | 0 <= j < |r| :: r[j] == if j < i then turns[j] else turns[j + 1];
    hide DropAt;
  }

  lemma {:induction false} MakeRoomDistinct(turns: seq<Turn>)
    requires DistinctTurns(turns) && MakeRoom(turns).Some?
    ensures DistinctTurns(MakeRoom(turns).value)
    decreases |turns|
  {
    hide DistinctTurns, DropAt, OldestTerminal;
    if |turns| >= MAX_MODEL_TURN_RECORDS {
      DropDistinct(turns, OldestTerminal(turns));
      MakeRoomDistinct(DropAt(turns, OldestTerminal(turns)));
    }
  }

  /**
   * A reservation keeps the registry within its bounds and evicts no live turn: a record leaves
   * only as a tombstone, and only expired or out of a full registry. A success adds one fresh
   * active record under an id that no kept record holds.
   */
  lemma ReserveKeeps(turns: seq<Turn>, owner: nat, turnId: string, digest: string, now: int)
    requires RegistryOk(turns) && forall t | t in turns :: t.owner != owner
    ensures var r := Reserve(turns, owner, turnId, digest, now);
            && RegistryOk(r.turns)
            && (forall t | t in turns && t !in r.turns :: t.state == Terminal && (Expired(t, now) || |turns| >= MAX_MODEL_TURN_RECORDS))
            && (r.refusal.Some? ==> forall t | t in r.turns :: t in turns)
            && (r.refusal.None? ==>
                  && Turn(owner, turnId, digest, Active, None) in r.turns
                  && (forall t | t in r.turns && t.owner != owner :: t in turns && t.turnId != turnId)
                  && (forall t | t in turns && t in r.turns :: t.turnId != turnId))
  {
    var kept := Sweep(turns, now);
    SweepDistinct(turns, now);
    var i := FindTurn(kept, turnId);
    if i == |kept| && MakeRoom(kept).Some? {
      var room := MakeRoom(kept).value;
      MakeRoomDistinct(kept);
      var added := Turn(owner, turnId, digest, Active, None);
      forall t | t in room
        ensures t in turns && t.turnId != turnId && t.owner != owner
      {
        assert t in kept;
      }
      assert (room + [added])[|room|] == added;
    }
  }

  /** The refusals are exact: which of them, and when a turn id may be reserved. */
  lemma ReserveRefuses(turns: seq<Turn>, owner: nat, turnId: string, digest: string, now: int)
    requires RegistryOk(turns)
    ensures var r := Reserve(turns, owner, turnId, digest, now);
            var live := (t: Turn) => t in turns && !Expired(t, now);
            && (r.refusal == Some(Conflict) <==> exists t :: live(t) && t.turnId == turnId && t.digest != digest)
            && (r.refusal == Some(AlreadySettled) <==>
                exists t :: live(t) && t.turnId == turnId && t.digest == digest && t.state == Terminal)
            && (r.refusal == Some(InProgress) <==>
                exists t :: live(t) && t.turnId == turnId && t.digest == digest && t.state != Terminal)
            && (r.refusal == Some(RegistryFull) <==>
                (forall t :: live(t) ==> t.turnId != turnId && t.state != Terminal) && |Sweep(turns, now)| == MAX_MODEL_TURN_RECORDS)
  {
    var r := Reserve(turns, owner, turnId, digest, now);
    var kept := Sweep(turns, now);
    SweepDistinct(turns, now);
    var i := FindTurn(kept, turnId);
    if i < |kept| {
      assert kept[i] in kept;
      forall t | t in kept && t.turnId == turnId
        ensures t == kept[i]
      {
        var j :| 0 <= j < |kept| && kept[j] == t;
      }
    } else {
      assert forall t | t in kept :: t.turnId != turnId;
      var k := OldestTerminal(kept);
      if |kept| >= MAX_MODEL_TURN_RECORDS {
        if k < |kept| {
          assert kept[k] in kept;
          assert MakeRoom(DropAt(kept, k)) == Some(DropAt(kept, k));
          assert r.refusal.None?;
        } else {
          assert forall t | t in kept :: t.state != Terminal;
        }
      }
    }
  }

  lemma SweepSnoc(turns: seq<Turn>, t: Turn, now: int)
    ensures Sweep(turns + [t], now) == Sweep(turns, now) + (if Expired(t, now) then [] else [t])
  {
    assert (turns + [t])[..|turns|] == turns;
  }

  /** Of a registry within its bound, at most one record is evicted. */
  lemma RoomAtMost(turns: seq<Turn>)
    requires |turns| <= MAX_MODEL_TURN_RECORDS
    ensures MakeRoom(turns) == if |turns| < MAX_MODEL_TURN_RECORDS then Some(turns)
                               else if OldestTerminal(turns) == |turns| then None
                               else Some(DropAt(turns, OldestTerminal(turns)))
  {
    hide DropAt, OldestTerminal;
  }

  lemma SweepNoLonger(turns: seq<Turn>, now: int)
    ensures |Sweep(turns, now)| <= |turns|
  {
  }

  // ---- The registry object ------------------------------------------------------------------

  class ModelTurnRecord {
    const owner: nat
    const turnId: string
    const digest: string
    var expiresAt: Option<int>
    var state: TurnState

    constructor (owner: nat, turnId: string, digest: string)
      ensures View() == Turn(owner, turnId, digest, Active, None)
    {
      this.owner, this.turnId, this.digest := owner, turnId, digest;
      expiresAt, state := None, Active;
    }

    function View(): Turn
      reads this
    {
      Turn(owner, turnId, digest, state, expiresAt)
    }
  }

  function ViewsOf(records: seq<ModelTurnRecord>): (r: seq<Turn>)
    reads records
    ensures |r| == |records| && forall i | 0 <= i < |records| :: r[i] == records[i].View()
  {
    seq(|records|, i requires 0 <= i < |records| reads records => records[i].View())
  }

  lemma ViewsSnoc(records: seq<ModelTurnRecord>, record: ModelTurnRecord)
    ensures ViewsOf(records + [record]) == ViewsOf(records) + [record.View()]
  {
  }

  class ModelTurnRegistry {
    /** The map's records in insertion order. */
    var modelTurns: seq<ModelTurnRecord>

    constructor ()
      ensures modelTurns == [] && Views() == []
    {
      modelTurns := [];
    }

    function Views(): seq<Turn>
      reads this, modelTurns
    {
      ViewsOf(modelTurns)
    }

    /** The records that the first loop of reserveModelTurn leaves. */
    static method Unexpired(records: seq<ModelTurnRecord>, now: int) returns (kept: seq<ModelTurnRecord>)
      ensures ViewsOf(kept) == Sweep(ViewsOf(records), now)
      ensures forall r | r in kept :: r in records
    {
      ghost var before := ViewsOf(records);
      assert before[..0] == [] && Sweep([], now) == [];
      hide Sweep, FindTurn, OldestTerminal, MakeRoom, Reserve, ViewsOf, DropAt;
      kept := [];
      for k := 0 to |records|
        invariant ViewsOf(kept) == Sweep(before[..k], now)
        invariant forall r | r in kept :: r in records
      {
        var record := records[k];
        assert before[..k + 1] == before[..k] + [record.View()];
        SweepSnoc(before[..k], record.View(), now);
        if !(record.state == Terminal && record.expiresAt.Some? && record.expiresAt.value <= now) {
          ViewsSnoc(kept, record);
          kept := kept + [record];
        }
      }
      assert before[..|records|] == before;
    }

    /** The first loop of reserveModelTurn. */
    method DropExpired(now: int)
      modifies this
      ensures Views() == Sweep(old(Views()), now)
      ensures forall r | r in modelTurns :: r in old(modelTurns)
    {
      hide Sweep, ViewsOf;
      modelTurns := Unexpired(modelTurns, now);
    }

    /** Map.get by turn id, as an index. */
    method Lookup(turnId: string) returns (i: nat)
      ensures i == FindTurn(Views(), turnId)
    {
      i := 0;
      while i < |modelTurns| && modelTurns[i].turnId != turnId
        invariant i <= |modelTurns|
        invariant FindTurn(Views(), turnId) == i + FindTurn(Views()[i..], turnId)
      {
        assert Views()[i..][1..] == Views()[i + 1..];
        i := i + 1;
      }
    }

    method FindOldestTerminal() returns (i: nat)
      ensures i == OldestTerminal(Views())
    {
      i := 0;
      while i < |modelTurns| && modelTurns[i].state != Terminal
        invariant i <= |modelTurns|
        invariant OldestTerminal(Views()) == i + OldestTerminal(Views()[i..])
      {
        assert Views()[i..][1..] == Views()[i + 1..];
        i := i + 1;
      }
    }

    method Evict(oldest: nat)
      requires oldest < |modelTurns|
      modifies this
      ensures Views() == DropAt(old(Views()), oldest)
    {
      modelTurns := modelTurns[..oldest] + modelTurns[oldest + 1..];
      assert Views() == DropAt(old(Views()), oldest);
    }

    /** The eviction loop of reserveModelTurn. */
    method EvictForOne() returns (ok: bool)
      requires |modelTurns| <= MAX_MODEL_TURN_RECORDS
      modifies this
      ensures ok == MakeRoom(old(Views())).Some?
      ensures Views() == if ok then MakeRoom(old(Views())).value else old(Views())
    {
      hide DropAt, OldestTerminal, MakeRoom, Reserve, Sweep, FindTurn;
      ghost var kept := Views();
      RoomAtMost(kept);
      while |modelTurns| >= MAX_MODEL_TURN_RECORDS
        invariant Views() == kept || (|modelTurns| < MAX_MODEL_TURN_RECORDS && MakeRoom(kept) == Some(Views()))
        decreases |modelTurns|
      {
        var oldest := FindOldestTerminal();
        if oldest == |modelTurns| {
          return false;
        }
        Evict(oldest);
      }
      return true;
    }

    /** reserveModelTurn for a keyed request. */
    method ReserveModelTurn(owner: nat, turnId: string, digest: string, now: int) returns (r: Result<ModelTurnRecord, ReserveError>)
      requires |modelTurns| <= MAX_MODEL_TURN_RECORDS
      modifies this
      ensures var reservation := Reserve(old(Views()), owner, turnId, digest, now);
              && Views() == reservation.turns
              && (match reservation.refusal
                  case Some(error) => r == Err(error)
                  case None => r.Ok? && fresh(r.value) && r.value in modelTurns)
    {
      hide Sweep, MakeRoom, FindTurn;
      DropExpired(now);
      ghost var kept := Views();
      assert |kept| <= |old(Views())| by { SweepNoLonger(old(Views()), now); }
      var existing := Lookup(turnId);
      if existing < |modelTurns| {
        var record := modelTurns[existing];
        assert kept[existing] == record.View();
        return Err(if record.digest != digest then Conflict
                   else if record.state == Terminal then AlreadySettled else InProgress);
      }
      var ok := EvictForOne();
      if !ok {
        return Err(RegistryFull);
      }
      ghost var room := Views();
      var record := new ModelTurnRecord(owner, turnId, digest);
      modelTurns := modelTurns + [record];
      assert Views() == room + [record.View()];
      return Ok(record);
    }

    /** completeModelTurn: only a record that is still registered, and only once. */
    method CompleteModelTurn(record: ModelTurnRecord, now: int)
      requires forall i, j | 0 <= i < j < |modelTurns| :: modelTurns[i].turnId != modelTurns[j].turnId
      modifies record
      ensures record in modelTurns ==> record.View() == Completed(old(record.View()), now)
      ensures record !in modelTurns ==> record.View() == old(record.View())
    {
      var i := Lookup(record.turnId);
      if i == |modelTurns| || modelTurns[i] != record || record.state == Terminal {
        assert record in modelTurns ==> record.state == Terminal by {
          if record in modelTurns {
            var j :| 0 <= j < |modelTurns| && modelTurns[j] == record;
            assert Views()[j].turnId == record.turnId;
          }
        }
        return;
      }
      record.state := Terminal;
      record.expiresAt := Some(now + MODEL_TURN_TOMBSTONE_MS);
    }
  }
}
