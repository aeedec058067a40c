/** The server's payment-link ("note") index
    (packages/daimo-api/src/contract/noteIndexer.ts). Each note is created
    once, in state confirmed, and redeemed at most once, into claimed or
    cancelled. Notes are objects: the index stores them in a map keyed by
    the owner's address text, redemption changes a stored note in place, and
    listeners receive the very objects the map holds. The database query,
    the name registry and the dollar formatting are outside the model: loaded
    rows are method inputs and the lookups are function parameters. */
module NoteIndexer {
  import opened Errors
  import opened Common
  import DaimoLink

  /** The name registry and formatting the index consults. */
  datatype Env = Env(
    getEAccount: Address -> EAccount,
    amountToDollars: int -> string,
    eAccountStr: EAccount -> string)

  datatype NoteState = Confirmed | Claimed | Cancelled

  /** The key of the `notes` map: the text of an address. */
  type Key = (nat, bool)

  /** A `DaimoNoteStatus` record, shared by the index and its listeners. */
  class Note {
    var status: NoteState
    const dollars: string
    const link: DaimoLink.DaimoLink
    const sender: EAccount
    var claimer: Option<EAccount>

    constructor(dollars: string, link: DaimoLink.DaimoLink, sender: EAccount)
      ensures status == NoteState.Confirmed && claimer.None?
      ensures this.dollars == dollars && this.link == link && this.sender == sender
    {
      status := NoteState.Confirmed;
      this.dollars := dollars;
      this.link := link;
      this.sender := sender;
      claimer := None;
    }

    /** The part of the note the index reasons about. */
    function View(): NoteView
      reads this
    {
      NoteView(status, dollars, claimer)
    }
  }

  /** The fixed parts of the note a creation stores: the creation's dollars,
      link and sender. */
  predicate Made(note: Note, log: CreatedLog, env: Env)
  {
    note.dollars == env.amountToDollars(log.amount) && note.link == NewLink(log, env)
    && note.sender == env.getEAccount(log.from)
  }

  /** `created[i]` is the note the `i`-th creation made. */
  predicate AllMade(created: seq<Note>, logs: seq<CreatedLog>, env: Env)
  {
    |created| == |logs| && forall i :: 0 <= i < |logs| ==> Made(created[i], logs[i], env)
  }

  lemma AllMadeAppend(created: seq<Note>, logs: seq<CreatedLog>, i: nat, note: Note, env: Env)
    requires i < |logs| && AllMade(created, logs[..i], env) && Made(note, logs[i], env)
    ensures AllMade(created + [note], logs[..i + 1], env)
  {
  }

  datatype NoteView = NoteView(status: NoteState, dollars: string, claimer: Option<EAccount>)

  /** The note states the map holds. */
  function Views(notes: map<Key, Note>): (r: map<Key, NoteView>)
    reads notes.Values
    ensures r.Keys == notes.Keys
    ensures forall k :: k in notes ==> r[k] == notes[k].View()
  {
    map k | k in notes :: notes[k].View()
  }

  /** A key of `logCoordinateToNoteEvent`: a fresh object per call. */
  class LogCoordinate {
    const logIndex: nat
    const transactionHash: Hex

    constructor(logIndex: nat, transactionHash: Hex)
      ensures this.logIndex == logIndex && this.transactionHash == transactionHash
    {
      this.logIndex := logIndex;
      this.transactionHash := transactionHash;
    }
  }

  datatype NoteEvent = Create | Claim

  // ---------------------------------------------------------------------
  // Loaded logs

  /** A `note_created` row, with byte fields as numbers. */
  datatype CreatedRow = CreatedRow(txHash: Hex, logIdx: nat, f: nat, ephemeralOwner: nat, amount: int)

  /** A `note_redeemed` row, with byte fields as numbers. */
  datatype RedeemedRow = RedeemedRow(txHash: Hex, logIdx: nat, f: nat, redeemer: nat, ephemeralOwner: nat, amount: int)

  datatype CreatedLog = CreatedLog(transactionHash: Hex, logIndex: nat, from: Address, ephemeralOwner: Address, amount: int)

  datatype RedeemedLog = RedeemedLog(transactionHash: Hex, logIndex: nat, from: Address, redeemer: Address,
                                     ephemeralOwner: Address, amount: int)

  /** A creation row: both addresses checksummed. */
  function ToCreatedLog(row: CreatedRow): (log: CreatedLog)
    ensures log.from == Address(row.f, true) && log.ephemeralOwner == Address(row.ephemeralOwner, true)
    ensures log.amount == row.amount && log.transactionHash == row.txHash && log.logIndex == row.logIdx
  {
    CreatedLog(row.txHash, row.logIdx, GetAddress(LowerHex(row.f)), GetAddress(LowerHex(row.ephemeralOwner)), row.amount)
  }

  /** A redemption row: `from` stays lower case, the other two are checksummed. */
  function ToRedeemedLog(row: RedeemedRow): (log: RedeemedLog)
    ensures log.from == Address(row.f, false)
    ensures log.redeemer == Address(row.redeemer, true) && log.ephemeralOwner == Address(row.ephemeralOwner, true)
    ensures log.amount == row.amount && log.transactionHash == row.txHash && log.logIndex == row.logIdx
  {
    RedeemedLog(row.txHash, row.logIdx, LowerHex(row.f), GetAddress(LowerHex(row.redeemer)),
                GetAddress(LowerHex(row.ephemeralOwner)), row.amount)
  }

  function OwnerKey(owner: Address): Key
  {
    AddrText(owner)
  }

  // ---------------------------------------------------------------------
  // Creation, as a function of the note states

  /** The note a creation log stores. */
  function NewView(log: CreatedLog, env: Env): (v: NoteView)
    ensures v.status == NoteState.Confirmed && v.claimer.None?
    ensures v.dollars == env.amountToDollars(log.amount)
  {
    NoteView(NoteState.Confirmed, env.amountToDollars(log.amount), None)
  }

  /** The link a created note carries. */
  function NewLink(log: CreatedLog, env: Env): (l: DaimoLink.DaimoLink)
    ensures l.NoteLink? && l.ephemeralOwner == log.ephemeralOwner && l.ephemeralPrivateKey.None?
    ensures l.previewDollars == env.amountToDollars(log.amount)
    ensures l.previewSender == env.eAccountStr(env.getEAccount(log.from))
  {
    DaimoLink.NoteLink(env.eAccountStr(env.getEAccount(log.from)), env.amountToDollars(log.amount), log.ephemeralOwner, None)
  }

  /** Whether a creation in the batch names an owner the index already had
      before the batch. Under `Promise.all` every duplicate check runs before
      any note of the batch is stored, so only the state before the batch
      counts. */
  predicate Dupe(pre: map<Key, NoteView>, logs: seq<CreatedLog>)
    ensures Dupe(pre, logs) ==> exists i :: 0 <= i < |logs| && OwnerKey(logs[i].ephemeralOwner) in pre
  {
    logs != [] && (Dupe(pre, logs[..|logs| - 1]) || OwnerKey(logs[|logs| - 1].ephemeralOwner) in pre)
  }

  /** A batch is rejected exactly when one of its owners was known before it. */
  lemma {:induction false} DupeMeaning(pre: map<Key, NoteView>, logs: seq<CreatedLog>)
    ensures Dupe(pre, logs) <==> exists i :: 0 <= i < |logs| && OwnerKey(logs[i].ephemeralOwner) in pre
  {
    if logs != [] {
      var init := logs[..|logs| - 1];
      DupeMeaning(pre, init);
      if Dupe(pre, init) {
        var i :| 0 <= i < |init| && OwnerKey(init[i].ephemeralOwner) in pre;
        assert logs[i] == init[i];
      }
      if exists i :: 0 <= i < |logs| && OwnerKey(logs[i].ephemeralOwner) in pre {
        var i :| 0 <= i < |logs| && OwnerKey(logs[i].ephemeralOwner) in pre;
        if i < |init| {
          assert init[i] == logs[i];
        }
      }
    }
  }

  /** The note states after `loadCreated`: every creation whose owner was not
      known before the batch is stored; a later one for the same owner
      replaces an earlier one. */
  function Inserted(pre: map<Key, NoteView>, logs: seq<CreatedLog>, env: Env): (r: map<Key, NoteView>)
    ensures pre.Keys <= r.Keys
  {
    if logs == [] then pre
    else
      var last := logs[|logs| - 1];
      var m := Inserted(pre, logs[..|logs| - 1], env);
      if OwnerKey(last.ephemeralOwner) in pre then m
      else m[OwnerKey(last.ephemeralOwner) := NewView(last, env)]
  }

  /** A creation never overwrites a note that existed before the batch. */
  lemma {:induction false} InsertedKeepsExisting(pre: map<Key, NoteView>, logs: seq<CreatedLog>, env: Env)
    ensures forall k :: k in pre ==> Inserted(pre, logs, env)[k] == pre[k]
  {
    if logs != [] {
      InsertedKeepsExisting(pre, logs[..|logs| - 1], env);
    }
  }

  /** After a batch, every owner in it is known; the new ones are confirmed
      notes with the creation's dollars, and nothing else was added. */
  lemma {:induction false} InsertedAddsOwners(pre: map<Key, NoteView>, logs: seq<CreatedLog>, env: Env)
    ensures var r := Inserted(pre, logs, env);
      && (forall i :: 0 <= i < |logs| ==> OwnerKey(logs[i].ephemeralOwner) in r)
      && (forall k :: k in r && k !in pre ==>
            r[k].status == NoteState.Confirmed && r[k].claimer.None?
            && exists i :: 0 <= i < |logs| && OwnerKey(logs[i].ephemeralOwner) == k
                           && r[k].dollars == env.amountToDollars(logs[i].amount))
  {
    if logs != [] {
      var init := logs[..|logs| - 1];
      InsertedAddsOwners(pre, init, env);
      forall i | 0 <= i < |init| ensures logs[i] == init[i] { }
    }
  }

  /** Two creations of the same new owner in one batch both pass the
      duplicate check: the second replaces the first and no error is raised. */
  lemma SameBatchDuplicatePasses(pre: map<Key, NoteView>, a: CreatedLog, b: CreatedLog, env: Env)
    requires a.ephemeralOwner == b.ephemeralOwner && OwnerKey(a.ephemeralOwner) !in pre
    ensures !Dupe(pre, [a, b])
    ensures Inserted(pre, [a, b], env) == pre[OwnerKey(a.ephemeralOwner) := NewView(b, env)]
  {
    var k := OwnerKey(a.ephemeralOwner);
    assert [a, b][..1] == [a];
    assert [a][..0] == [];
    assert !Dupe(pre, [a]);
    assert Inserted(pre, [a], env) == pre[k := NewView(a, env)];
  }

  // ---------------------------------------------------------------------
  // Redemption, as a function of the note states

  /** One redemption: the checks in order, then the terminal state and the
      claimer. The state is cancelled when the redeemer's text equals the
      sender's text, claimed otherwise. */
  function Redeem(views: map<Key, NoteView>, log: RedeemedLog, env: Env): (r: Result<map<Key, NoteView>>)
    ensures var k := OwnerKey(log.ephemeralOwner);
      && (r.Ok? <==> k in views && views[k].status == NoteState.Confirmed
                     && views[k].dollars == env.amountToDollars(log.amount))
      && (r.Ok? ==> r.value == views[k := NoteView(
                      if SameText(log.redeemer, log.from) then NoteState.Cancelled else NoteState.Claimed,
                      views[k].dollars, Some(env.getEAccount(log.redeemer)))])
  {
    var k := OwnerKey(log.ephemeralOwner);
    if k !in views then Err("bad NoteRedeemed, missing note")
    else if views[k].status != NoteState.Confirmed then Err("bad NoteRedeemed, already claimed")
    else if views[k].dollars != env.amountToDollars(log.amount) then Err("bad NoteRedeemed, wrong amount")
    else Ok(views[k := NoteView(if SameText(log.redeemer, log.from) then NoteState.Cancelled else NoteState.Claimed,
                                views[k].dollars, Some(env.getEAccount(log.redeemer)))])
  }

  /** The redemptions of a batch, all attempted in order: a failed one
      changes nothing and the batch reports the first failure. */
  function RedeemAll(views: map<Key, NoteView>, logs: seq<RedeemedLog>, env: Env): (r: (map<Key, NoteView>, Option<string>))
    ensures r.0.Keys == views.Keys
  {
    if logs == [] then (views, None)
    else
      var prev := RedeemAll(views, logs[..|logs| - 1], env);
      match Redeem(prev.0, logs[|logs| - 1], env)
      case Ok(m) => (m, prev.1)
      case Err(msg) => (prev.0, if prev.1.Some? then prev.1 else Some(msg))
  }

  /** One more log: its redemption runs on the states the earlier ones left,
      and the first failure is the one reported. */
  lemma RedeemAllStep(views: map<Key, NoteView>, logs: seq<RedeemedLog>, i: nat, env: Env)
    requires i < |logs|
    ensures var prev := RedeemAll(views, logs[..i], env);
      var step := Redeem(prev.0, logs[i], env);
      RedeemAll(views, logs[..i + 1], env)
      == if step.Ok? then (step.value, prev.1) else (prev.0, if prev.1.Some? then prev.1 else Some(step.msg))
  {
    assert logs[..i + 1][..i] == logs[..i];
  }

  /** `redeemed[j]` is the note stored under the `j`-th log's owner. */
  predicate AllStored(notes: map<Key, Note>, redeemed: seq<Note>, logs: seq<RedeemedLog>)
  {
    |redeemed| == |logs|
    && forall j :: 0 <= j < |logs| ==> MapGet(notes, OwnerKey(logs[j].ephemeralOwner)) == Some(redeemed[j])
  }

  lemma AllStoredAppend(notes: map<Key, Note>, redeemed: seq<Note>, logs: seq<RedeemedLog>, i: nat, note: Note)
    requires i < |logs| && AllStored(notes, redeemed, logs[..i])
    requires MapGet(notes, OwnerKey(logs[i].ephemeralOwner)) == Some(note)
    ensures AllStored(notes, redeemed + [note], logs[..i + 1])
  {
  }

  predicate Terminal(s: NoteState)
  {
    s == NoteState.Claimed || s == NoteState.Cancelled
  }

  /** No redemption leaves a terminal state or changes a note's dollars. */
  lemma {:induction false} TerminalStays(views: map<Key, NoteView>, logs: seq<RedeemedLog>, env: Env)
    ensures var r := RedeemAll(views, logs, env).0;
      forall k :: k in views ==>
        r[k].dollars == views[k].dollars
        && (Terminal(views[k].status) ==> r[k] == views[k])
        && (Terminal(r[k].status) || r[k] == views[k])
  {
    if logs != [] {
      TerminalStays(views, logs[..|logs| - 1], env);
    }
  }

  /** A batch without errors redeemed only confirmed notes and left each of
      them claimed or cancelled. */
  lemma {:induction false} CleanBatchRedeemsConfirmed(views: map<Key, NoteView>, logs: seq<RedeemedLog>, env: Env)
    requires RedeemAll(views, logs, env).1.None?
    ensures forall i :: 0 <= i < |logs| ==>
      var k := OwnerKey(logs[i].ephemeralOwner);
      k in views && views[k].status == NoteState.Confirmed && Terminal(RedeemAll(views, logs, env).0[k].status)
  {
    if logs != [] {
      var init := logs[..|logs| - 1];
      CleanBatchRedeemsConfirmed(views, init, env);
      TerminalStays(views, init, env);
      forall i | 0 <= i < |init| ensures logs[i] == init[i] { }
    }
  }

  /** A batch without errors redeemed each of its notes once: no two of its
      logs share an owner. */
  lemma {:induction false} CleanBatchRedeemsOnce(views: map<Key, NoteView>, logs: seq<RedeemedLog>, env: Env)
    requires RedeemAll(views, logs, env).1.None?
    ensures forall i, j :: 0 <= i < j < |logs| ==> OwnerKey(logs[i].ephemeralOwner) != OwnerKey(logs[j].ephemeralOwner)
  {
    if logs != [] {
      var init := logs[..|logs| - 1];
      var last := logs[|logs| - 1];
      CleanBatchRedeemsOnce(views, init, env);
      CleanBatchRedeemsConfirmed(views, init, env);
      var prev := RedeemAll(views, init, env).0;
      forall i | 0 <= i < |init| ensures logs[i] == init[i] { }
      var k := OwnerKey(last.ephemeralOwner);
      assert prev[k].status == NoteState.Confirmed;
      forall i | 0 <= i < |init| ensures OwnerKey(logs[i].ephemeralOwner) != k {
        assert Terminal(prev[OwnerKey(init[i].ephemeralOwner)].status);
      }
    }
  }

  /** The sender's text is lower case and the redeemer's is checksummed, so a
      sender taking back their own note is recorded as claimed whenever the
      address has a hex letter. */
  lemma SelfRedeemRecordedAsClaimed(views: map<Key, NoteView>, row: RedeemedRow, env: Env)
    requires row.redeemer == row.f && HexHasLetter(row.f)
    requires Redeem(views, ToRedeemedLog(row), env).Ok?
    ensures Redeem(views, ToRedeemedLog(row), env).value[OwnerKey(ToRedeemedLog(row).ephemeralOwner)].status
         == NoteState.Claimed
  {
    var log := ToRedeemedLog(row);
    assert AddrText(log.redeemer) == (row.f, true);
    assert AddrText(log.from) == (row.f, false);
  }

  // ---------------------------------------------------------------------
  // The index

  /** Every stored note is one of `repr`, and distinct owners hold distinct
      note objects. */
  ghost predicate Owned(notes: map<Key, Note>, repr: set<Note>)
  {
    (forall k :: k in notes ==> notes[k] in repr)
    && forall k1, k2 :: k1 in notes && k2 in notes && k1 != k2 ==> notes[k1] != notes[k2]
  }

  /** Storing a note the index did not hold before keeps the notes owned. */
  lemma OwnedInsert(notes: map<Key, Note>, repr: set<Note>, k: Key, note: Note)
    requires Owned(notes, repr) && note !in repr
    ensures Owned(notes[k := note], repr + {note})
  {
    var m := notes[k := note];
    forall k1, k2 | k1 in m && k2 in m && k1 != k2 ensures m[k1] != m[k2] {
      if k1 != k && k2 != k {
        assert m[k1] == notes[k1] && m[k2] == notes[k2];
      }
    }
  }

  /** The states after storing one note: only its key changes. */
  lemma ViewsInsert(notes: map<Key, Note>, k: Key, note: Note)
    ensures Views(notes[k := note]) == Views(notes)[k := note.View()]
  {
    var m := notes[k := note];
    forall k' | k' in m ensures Views(m)[k'] == Views(notes)[k := note.View()][k'] {
      if k' != k {
        assert m[k'] == notes[k'];
      }
    }
  }

  /** The states of notes no step touched stay as they were. */
  twostate lemma ViewsFrame(notes: map<Key, Note>)
    requires forall k :: k in notes ==> unchanged(notes[k])
    ensures Views(notes) == old(Views(notes))
  {
  }

  /** The note a creation stores, before the index holds it. */
  method NewNote(log: CreatedLog, env: Env) returns (note: Note)
    ensures fresh(note) && Made(note, log, env) && note.View() == NewView(log, env)
  {
    var sender := env.getEAccount(log.from);
    var dollars := env.amountToDollars(log.amount);
    note := new Note(dollars, DaimoLink.NoteLink(env.eAccountStr(sender), dollars, log.ephemeralOwner, None), sender);
  }

  class NoteIndexer {
    var notes: map<Key, Note>
    var listeners: seq<ListenerId>
    var logCoordinateToNoteEvent: map<LogCoordinate, (Address, NoteEvent)>
    /** Every listener call made so far, oldest first. */
    var delivered: seq<Call<seq<Note>>>
    /** The notes this index has created. */
    ghost var Repr: set<Note>

    /** Every stored note is one this index created, and distinct owners hold
        distinct note objects. */
    ghost predicate Valid()
      reads this`notes, this`Repr
    {
      Owned(notes, Repr)
    }

    constructor()
      ensures Valid() && notes == map[] && listeners == [] && delivered == []
    {
      notes := map[];
      listeners := [];
      logCoordinateToNoteEvent := map[];
      delivered := [];
      Repr := {};
    }

    method AddListener(listener: ListenerId)
      modifies this`listeners
      ensures listeners == old(listeners) + [listener]
    {
      listeners := listeners + [listener];
    }

    /** `getNoteStatus`. */
    function GetNoteStatus(ephemeralOwner: Address): (r: Option<Note>)
      reads this
      ensures r.Some? <==> OwnerKey(ephemeralOwner) in notes
      ensures r.Some? ==> r.value == notes[OwnerKey(ephemeralOwner)]
    {
      MapGet(notes, OwnerKey(ephemeralOwner))
    }

    /** `getNotebyLogCoordinate`: the map is keyed by object identity and the
        lookup key is a new object, so nothing is ever found. */
    method GetNotebyLogCoordinate(transactionHash: Hex, logIndex: nat) returns (r: Option<(Address, NoteEvent)>)
      ensures r.None?
    {
      var key := new LogCoordinate(logIndex, transactionHash);
      r := MapGet(logCoordinateToNoteEvent, key);
    }

    /** The body of a `loadCreated` callback after its duplicate check. */
    method CreateOne(log: CreatedLog, env: Env) returns (note: Note)
      requires Valid()
      modifies this`notes, this`logCoordinateToNoteEvent, this`Repr
      ensures Valid() && fresh(note) && Repr == old(Repr) + {note}
      ensures notes == old(notes)[OwnerKey(log.ephemeralOwner) := note]
      ensures Views(notes) == old(Views(notes))[OwnerKey(log.ephemeralOwner) := NewView(log, env)]
      ensures Made(note, log, env) && note.View() == NewView(log, env)
    {
      var k := OwnerKey(log.ephemeralOwner);
      note := NewNote(log, env);
      OwnedInsert(notes, Repr, k, note);
      var coordinate := new LogCoordinate(log.logIndex, log.transactionHash);
      notes := notes[k := note];
      logCoordinateToNoteEvent := logCoordinateToNoteEvent[coordinate := (log.ephemeralOwner, Create)];
      Repr := Repr + {note};
      ViewsFrame(old(notes));
      ViewsInsert(old(notes), k, note);
    }

    /** The `i`-th `loadCreated` callback after every duplicate check ran
        against `pre`: it stores its note unless its check failed. */
    method StoreStep(ghost pre': map<Key, NoteView>, pre: map<Key, Note>, logs: seq<CreatedLog>, i: nat, env: Env)
      returns (note: Option<Note>)
      requires i < |logs| && pre'.Keys == pre.Keys
      requires Valid() && Views(notes) == Inserted(pre', logs[..i], env)
      modifies this`notes, this`logCoordinateToNoteEvent, this`Repr
      ensures Valid() && Views(notes) == Inserted(pre', logs[..i + 1], env)
      ensures note.Some? <==> OwnerKey(logs[i].ephemeralOwner) !in pre
      ensures note.Some? ==> fresh(note.value) && Made(note.value, logs[i], env)
                             && notes == old(notes)[OwnerKey(logs[i].ephemeralOwner) := note.value]
      ensures note.Some? ==> Repr == old(Repr) + {note.value}
      ensures note.None? ==> notes == old(notes) && Repr == old(Repr)
    {
      assert logs[..i + 1][..i] == logs[..i];
      var log := logs[i];
      var k := OwnerKey(log.ephemeralOwner);
      if k in pre {
        return None;
      }
      var n := CreateOne(log, env);
      note := Some(n);
    }

    /** The checks of a `loadRedeemed` callback, in order. */
    method CheckRedeem(log: RedeemedLog, env: Env) returns (failure: Option<string>)
      ensures failure.None? <==> Redeem(Views(notes), log, env).Ok?
      ensures failure.Some? ==> failure.value == Redeem(Views(notes), log, env).msg
    {
      var k := OwnerKey(log.ephemeralOwner);
      failure := None;
      if k !in notes {
        failure := Some("bad NoteRedeemed, missing note");
      } else if notes[k].status != NoteState.Confirmed {
        failure := Some("bad NoteRedeemed, already claimed");
      } else if notes[k].dollars != env.amountToDollars(log.amount) {
        failure := Some("bad NoteRedeemed, wrong amount");
      }
    }

    /** The body of a `loadRedeemed` callback once its checks have passed. */
    method RedeemOne(log: RedeemedLog, env: Env) returns (note: Note)
      requires Valid()
      requires Redeem(Views(notes), log, env).Ok?
      modifies Repr, this`logCoordinateToNoteEvent
      ensures note == notes[OwnerKey(log.ephemeralOwner)]
      ensures Views(notes) == Redeem(old(Views(notes)), log, env).value
    {
      var k := OwnerKey(log.ephemeralOwner);
      note := notes[k];
      var coordinate := new LogCoordinate(log.logIndex, log.transactionHash);
      logCoordinateToNoteEvent := logCoordinateToNoteEvent[coordinate := (log.ephemeralOwner, Claim)];
      note.status := if SameText(log.redeemer, log.from) then NoteState.Cancelled else NoteState.Claimed;
      note.claimer := Some(env.getEAccount(log.redeemer));
      ghost var after := old(Views(notes))[k := note.View()];
      forall k' | k' in notes ensures Views(notes)[k'] == after[k'] {
        if k' != k {
          assert notes[k'] != note;
        }
      }
      assert Views(notes).Keys == notes.Keys == after.Keys;
      assert Views(notes) == after;
    }

    /** One `loadRedeemed` callback: the checks, then the update. */
    method RedeemLog(log: RedeemedLog, env: Env) returns (failure: Option<string>, note: Option<Note>)
      requires Valid()
      modifies Repr, this`logCoordinateToNoteEvent
      ensures notes == old(notes) && Valid()
      ensures var step := Redeem(old(Views(notes)), log, env);
        && (step.Ok? ==> failure.None? && Views(notes) == step.value
                         && note == Some(notes[OwnerKey(log.ephemeralOwner)]))
        && (step.Err? ==> failure == Some(step.msg) && Views(notes) == old(Views(notes)))
    {
      failure := CheckRedeem(log, env);
      if failure.Some? {
        return failure, None;
      }
      var n := RedeemOne(log, env);
      note := Some(n);
    }

    /** `load`: the creations of a block range, then its redemptions, then
        one call per listener with every note touched. A failing step ends
        the load: nothing after it runs and no listener is called, but what
        the earlier steps stored stays. */
    method Load(createdRows: seq<CreatedRow>, redeemedRows: seq<RedeemedRow>, env: Env) returns (r: Result<seq<Note>>)
      requires Valid()
      modifies this`notes, this`logCoordinateToNoteEvent, this`Repr, this`delivered, Repr
      ensures Valid() && fresh(Repr - old(Repr))
      ensures var created := Map(createdRows, ToCreatedLog);
        var dupe := Dupe(old(Views(notes)), created);
        var mid := Inserted(old(Views(notes)), created, env);
        var redeemed := RedeemAll(mid, Map(redeemedRows, ToRedeemedLog), env);
        && Views(notes) == (if dupe then mid else redeemed.0)
        && (r.Ok? <==> !dupe && redeemed.1.None?)
        && (r.Err? ==> r.msg == if dupe then "dupe NoteCreated" else redeemed.1.value)
      ensures r.Ok? ==> |r.value| == |createdRows| + |redeemedRows|
      ensures r.Ok? ==> AllMade(r.value[..|createdRows|], Map(createdRows, ToCreatedLog), env)
      ensures r.Ok? ==> AllStored(notes, r.value[|createdRows|..], Map(redeemedRows, ToRedeemedLog))
      ensures r.Ok? ==> delivered == old(delivered) + Calls(listeners, r.value)
      ensures r.Err? ==> delivered == old(delivered)
    {
      var created := LoadCreated(createdRows, env);
      if created.Err? {
        return Err(created.msg);
      }
      var redeemed := LoadRedeemed(redeemedRows, env);
      if redeemed.Err? {
        return Err(redeemed.msg);
      }
      var logs := created.value + redeemed.value;
      assert logs[..|createdRows|] == created.value && logs[|createdRows|..] == redeemed.value;
      Notify(logs);
      r := Ok(logs);
    }

    /** `ls.forEach((l) => l(logs))`. */
    method Notify(logs: seq<Note>)
      modifies this`delivered
      ensures delivered == old(delivered) + Calls(listeners, logs)
    {
      for i := 0 to |listeners|
        invariant delivered == old(delivered) + Calls(listeners[..i], logs)
      {
        assert listeners[..i + 1][..i] == listeners[..i];
        delivered := delivered + [Call(listeners[i], logs)];
      }
      assert listeners[..|listeners|] == listeners;
    }

    /** `loadCreated`. */
    method LoadCreated(rows: seq<CreatedRow>, env: Env) returns (r: Result<seq<Note>>)
      requires Valid()
      modifies this`notes, this`logCoordinateToNoteEvent, this`Repr
      ensures Valid()
      ensures Views(notes) == Inserted(old(Views(notes)), Map(rows, ToCreatedLog), env)
      ensures fresh(Repr - old(Repr))
      ensures r.Err? <==> Dupe(old(Views(notes)), Map(rows, ToCreatedLog))
      ensures r.Err? ==> r.msg == "dupe NoteCreated"
      ensures r.Ok? ==> AllMade(r.value, Map(rows, ToCreatedLog), env)
    {
      var logs := Map(rows, ToCreatedLog);
      // Every callback's duplicate check runs before any callback stores its note.
      var dupe := CheckDupes(logs);
      // The callbacks whose check passed then store their notes, in order.
      var created := StoreAll(logs, env);
      if dupe {
        return Err("dupe NoteCreated");
      }
      r := Ok(created);
    }

    /** The duplicate checks of a `loadCreated` batch. */
    method CheckDupes(logs: seq<CreatedLog>) returns (dupe: bool)
      ensures dupe == Dupe(Views(notes), logs)
    {
      ghost var pre' := Views(notes);
      dupe := false;
      for i := 0 to |logs|
        invariant dupe == Dupe(pre', logs[..i])
      {
        assert logs[..i + 1][..i] == logs[..i];
        if OwnerKey(logs[i].ephemeralOwner) in notes {
          dupe := true;
        }
      }
      assert logs[..|logs|] == logs;
    }

    /** The stores of a `loadCreated` batch, after all its checks. */
    method StoreAll(logs: seq<CreatedLog>, env: Env) returns (created: seq<Note>)
      requires Valid()
      modifies this`notes, this`logCoordinateToNoteEvent, this`Repr
      ensures Valid()
      ensures Views(notes) == Inserted(old(Views(notes)), logs, env)
      ensures fresh(Repr - old(Repr))
      ensures !Dupe(old(Views(notes)), logs) ==> AllMade(created, logs, env)
    {
      var pre := notes;
      ghost var pre' := Views(notes);
      ghost var dupe := Dupe(pre', logs);
      DupeMeaning(pre', logs);
      created := [];
      for i := 0 to |logs|
        invariant Valid()
        invariant Views(notes) == Inserted(pre', logs[..i], env)
        invariant forall n :: n in Repr ==> n in old(Repr) || fresh(n)
        invariant !dupe ==> AllMade(created, logs[..i], env)
      {
        var note := StoreStep(pre', pre, logs, i, env);
        if note.Some? {
          if !dupe {
            AllMadeAppend(created, logs, i, note.value, env);
          }
          created := created + [note.value];
        }
      }
      assert logs[..|logs|] == logs;
    }

    /** `loadRedeemed`. */
    method LoadRedeemed(rows: seq<RedeemedRow>, env: Env) returns (r: Result<seq<Note>>)
      requires Valid()
      modifies Repr, this`logCoordinateToNoteEvent
      ensures notes == old(notes) && Valid()
      ensures Views(notes) == RedeemAll(old(Views(notes)), Map(rows, ToRedeemedLog), env).0
      ensures r.Err? <==> RedeemAll(old(Views(notes)), Map(rows, ToRedeemedLog), env).1.Some?
      ensures r.Err? ==> r.msg == RedeemAll(old(Views(notes)), Map(rows, ToRedeemedLog), env).1.value
      ensures r.Ok? ==> AllStored(notes, r.value, Map(rows, ToRedeemedLog))
    {
      var logs := Map(rows, ToRedeemedLog);
      ghost var pre := Views(notes);
      var redeemed: seq<Note> := [];
      var err: Option<string> := None;
      for i := 0 to |logs|
        invariant notes == old(notes) && Valid()
        invariant Views(notes) == RedeemAll(pre, logs[..i], env).0
        invariant err == RedeemAll(pre, logs[..i], env).1
        invariant err.None? ==> AllStored(notes, redeemed, logs[..i])
      {
        RedeemAllStep(pre, logs, i, env);
        var failure, note := RedeemLog(logs[i], env);
        if failure.Some? {
          if err.None? {
            err := failure;
          }
        } else {
          if err.None? {
            AllStoredAppend(notes, redeemed, logs, i, note.value);
          }
          redeemed := redeemed + [note.value];
        }
      }
      assert logs[..|logs|] == logs;
      if err.Some? {
        return Err(err.value);
      }
      r := Ok(redeemed);
    }
  }
}
