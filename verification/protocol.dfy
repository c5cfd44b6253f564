/** The protocol ff-memless-next keeps towards the hardware-specific driver
    for each uncombinable effect: UPLOAD (which the driver may refuse),
    START_UNCOMB and STOP_UNCOMB (which cannot fail), and ERASE.

    Two views of it are given and proved to agree. `Step`/`Replay` is a
    state machine over a table from effect id to slot state. `FollowsHeader`
    states the rules over the history of commands: an effect is uploaded
    when its most recent UPLOAD succeeded and it has not been erased since,
    and it is playing when it has been started and not stopped or erased
    since. Two of its rules are the header's own (no START/STOP_UNCOMB
    without a successful UPLOAD, no ERASE while playing); three are this
    model's reading of the order the header describes (ERASE only for an
    uploaded effect, UPLOAD only for an effect that is not playing, and a
    refused UPLOAD revokes an earlier successful one). */
module Protocol {
  import opened Wrappers
  import opened Effects
  import opened Commands

  /** The state of an uploaded uncombinable effect: ready to play (uploaded,
      or stopped) or playing. An id absent from the table is not uploaded. */
  datatype SlotState = Ready | Playing

  type Slots = map<int, SlotState>

  /** One call of the driver callback: the command and what it returned.
      Only the return value of an UPLOAD is inspected. */
  datatype Event = Event(cmd: Command, ret: int)

  function Lookup(s: Slots, id: int): Option<SlotState>
  {
    if id in s then Some(s[id]) else None
  }

  /** True when the command addresses the uncombinable effect `id`. */
  predicate Touches(c: Command, id: int)
  {
    AddressesUncomb(c) && c.uncomb.id == id
  }

  /** Commands addressing an uncombinable effect carry an effect the
      classification calls uncombinable. */
  predicate WellFormed(c: Command)
  {
    AddressesUncomb(c) ==> Classify(c.uncomb.effect.kind) == Uncombinable
  }

  /** The slot table after one driver call, or None when the layer would
      have broken the protocol by making it. */
  function Step(s: Slots, ev: Event): (r: Option<Slots>)
    ensures r.Some? ==> WellFormed(ev.cmd)
    ensures r.Some? ==> forall k :: !Touches(ev.cmd, k) ==> Lookup(r.value, k) == Lookup(s, k)
    ensures r.Some? && (ev.cmd.StartUncomb? || ev.cmd.StopUncomb?) ==> ev.cmd.uncomb.id in s
    ensures r.Some? && ev.cmd.EraseUncomb? ==> Lookup(s, ev.cmd.uncomb.id) == Some(Ready)
    ensures r.Some? && ev.cmd.UploadUncomb? ==> Lookup(s, ev.cmd.uncomb.id) != Some(Playing)
    ensures r.Some? && ev.cmd.UploadUncomb? ==> (ev.cmd.uncomb.id in r.value <==> ev.ret == 0)
    ensures r.Some? && ev.cmd.StartUncomb? ==> Lookup(r.value, ev.cmd.uncomb.id) == Some(Playing)
    ensures r.Some? && ev.cmd.StopUncomb? ==> Lookup(r.value, ev.cmd.uncomb.id) == Some(Ready)
    ensures r.Some? && ev.cmd.EraseUncomb? ==> ev.cmd.uncomb.id !in r.value
  {
    if !WellFormed(ev.cmd) then None
    else match ev.cmd
      case UploadUncomb(u) =>
        if Lookup(s, u.id) == Some(Playing) then None
        else if ev.ret == 0 then Some(s[u.id := Ready])
        else Some(s - {u.id})
      case StartUncomb(u) =>
        if u.id in s then Some(s[u.id := Playing]) else None
      case StopUncomb(u) =>
        if u.id in s then Some(s[u.id := Ready]) else None
      case EraseUncomb(u) =>
        if Lookup(s, u.id) == Some(Ready) then Some(s - {u.id}) else None
      case _ => Some(s)
  }

  /** The slot table after a sequence of driver calls, or None when one of
      them breaks the protocol. */
  function Replay(s: Slots, t: seq<Event>): Option<Slots>
    decreases |t|
  {
    if t == [] then Some(s)
    else match Step(s, t[0])
      case None => None
      case Some(s') => Replay(s', t[1..])
  }

  /** A command stream the layer may send to a freshly registered device. */
  predicate ValidTrace(t: seq<Event>)
  {
    Replay(map[], t).Some?
  }

  /** Replaying two streams one after the other is replaying their
      concatenation. */
  lemma {:induction false} ReplayAppend(s: Slots, a: seq<Event>, b: seq<Event>)
    ensures Replay(s, a + b) ==
      match Replay(s, a)
      case None => None
      case Some(s') => Replay(s', b)
    decreases |a|
  {
    if a == [] {
      assert a + b == b;
    } else {
      assert (a + b)[0] == a[0];
      assert (a + b)[1..] == a[1..] + b;
      match Step(s, a[0])
      case None =>
      case Some(s') => ReplayAppend(s', a[1..], b);
    }
  }

  /** Replay one more call: the table so far, stepped once. */
  lemma ReplaySnoc(s: Slots, t: seq<Event>, e: Event)
    ensures Replay(s, t + [e]) ==
      match Replay(s, t)
      case None => None
      case Some(s') => Step(s', e)
  {
    ReplayAppend(s, t, [e]);
    match Replay(s, t)
    case None =>
    case Some(s') => assert Replay(s', [e]) == Step(s', e) by {
      assert [e][1..] == [];
    }
  }

  /** Replay of one call is that call's step. */
  lemma ReplayOne(s: Slots, a: Event)
    ensures Replay(s, [a]) == Step(s, a)
  {
    assert [a][1..] == [];
  }

  /** Replay of two calls is their steps in order. */
  lemma ReplayTwo(s: Slots, a: Event, b: Event)
    ensures Replay(s, [a, b]) ==
      match Step(s, a)
      case None => None
      case Some(s') => Step(s', b)
  {
    assert [a, b][1..] == [b];
    match Step(s, a)
    case None =>
    case Some(s') => ReplayOne(s', b);
  }

  // The rules over the history of driver calls.

  predicate SucceededUpload(ev: Event, id: int)
  {
    ev.cmd.UploadUncomb? && ev.cmd.uncomb.id == id && ev.ret == 0
  }

  /** An ERASE, or an UPLOAD the driver refused: either leaves `id` not
      uploaded. */
  predicate Revokes(ev: Event, id: int)
  {
    Touches(ev.cmd, id) && (ev.cmd.EraseUncomb? || (ev.cmd.UploadUncomb? && ev.ret != 0))
  }

  predicate Starts(ev: Event, id: int)
  {
    ev.cmd.StartUncomb? && ev.cmd.uncomb.id == id
  }

  predicate Halts(ev: Event, id: int)
  {
    Touches(ev.cmd, id) && (ev.cmd.StopUncomb? || ev.cmd.EraseUncomb?)
  }

  /** The most recent UPLOAD of `id` in `t` succeeded, and `id` has not been
      erased since. */
  predicate UploadedAfter(t: seq<Event>, id: int)
  {
    exists j :: 0 <= j < |t| && SucceededUpload(t[j], id) &&
      forall k :: j < k < |t| ==> !Revokes(t[k], id)
  }

  /** `id` has been started with START_UNCOMB and not stopped or erased
      since. */
  predicate PlayingAfter(t: seq<Event>, id: int)
  {
    exists j :: 0 <= j < |t| && Starts(t[j], id) &&
      forall k :: j < k < |t| ==> !Halts(t[k], id)
  }

  /** What the layer may send after the history `t`: START/STOP_UNCOMB only
      for an effect uploaded successfully and ERASE only for an effect that
      is not playing (the header's rules); in this model's reading also ERASE
      only for an uploaded effect and UPLOAD only for an effect that is not
      playing. */
  predicate Permitted(t: seq<Event>, ev: Event)
  {
    && WellFormed(ev.cmd)
    && match ev.cmd
       case StartUncomb(u) => UploadedAfter(t, u.id)
       case StopUncomb(u) => UploadedAfter(t, u.id)
       case EraseUncomb(u) => UploadedAfter(t, u.id) && !PlayingAfter(t, u.id)
       case UploadUncomb(u) => !PlayingAfter(t, u.id)
       case _ => true
  }

  predicate FollowsHeader(t: seq<Event>)
  {
    forall i :: 0 <= i < |t| ==> Permitted(t[..i], t[i])
  }

  /** The slot table says the same as the history. */
  ghost predicate Agrees(s: Slots, t: seq<Event>)
  {
    forall id ::
      && (id in s <==> UploadedAfter(t, id))
      && (Lookup(s, id) == Some(Playing) <==> PlayingAfter(t, id))
  }

  lemma UploadedAfterSnoc(t: seq<Event>, e: Event, id: int)
    ensures UploadedAfter(t + [e], id) <==>
      SucceededUpload(e, id) || (UploadedAfter(t, id) && !Revokes(e, id))
  {
    var t' := t + [e];
    if UploadedAfter(t', id) {
      var j :| 0 <= j < |t'| && SucceededUpload(t'[j], id) &&
        forall k :: j < k < |t'| ==> !Revokes(t'[k], id);
      if j < |t| {
        assert t'[j] == t[j];
        assert !Revokes(t'[|t|], id);
        forall k | j < k < |t| ensures !Revokes(t[k], id) {
          assert t'[k] == t[k];
        }
      }
    }
    if SucceededUpload(e, id) {
      assert t'[|t|] == e;
    } else if UploadedAfter(t, id) && !Revokes(e, id) {
      var j :| 0 <= j < |t| && SucceededUpload(t[j], id) &&
        forall k :: j < k < |t| ==> !Revokes(t[k], id);
      assert t'[j] == t[j];
      forall k | j < k < |t'| ensures !Revokes(t'[k], id) {
        if k < |t| { assert t'[k] == t[k]; }
      }
    }
  }

  lemma PlayingAfterSnoc(t: seq<Event>, e: Event, id: int)
    ensures PlayingAfter(t + [e], id) <==>
      Starts(e, id) || (PlayingAfter(t, id) && !Halts(e, id))
  {
    var t' := t + [e];
    if PlayingAfter(t', id) {
      var j :| 0 <= j < |t'| && Starts(t'[j], id) &&
        forall k :: j < k < |t'| ==> !Halts(t'[k], id);
      if j < |t| {
        assert t'[j] == t[j];
        assert !Halts(t'[|t|], id);
        forall k | j < k < |t| ensures !Halts(t[k], id) {
          assert t'[k] == t[k];
        }
      }
    }
    if Starts(e, id) {
      assert t'[|t|] == e;
    } else if PlayingAfter(t, id) && !Halts(e, id) {
      var j :| 0 <= j < |t| && Starts(t[j], id) &&
        forall k :: j < k < |t| ==> !Halts(t[k], id);
      assert t'[j] == t[j];
      forall k | j < k < |t'| ensures !Halts(t'[k], id) {
        if k < |t| { assert t'[k] == t[k]; }
      }
    }
  }

  /** One step keeps the table and the history in agreement, and the step
      is allowed exactly when the history-based rules permit the call. */
  lemma StepAgrees(s: Slots, t: seq<Event>, e: Event)
    requires Agrees(s, t)
    ensures Step(s, e).Some? <==> Permitted(t, e)
    ensures Step(s, e).Some? ==> Agrees(Step(s, e).value, t + [e])
  {
    if AddressesUncomb(e.cmd) {
      var id := e.cmd.uncomb.id;
      assert id in s <==> UploadedAfter(t, id);
      assert Lookup(s, id) == Some(Playing) <==> PlayingAfter(t, id);
      assert Lookup(s, id) == Some(Ready) <==> id in s && s[id] != Playing;
    }
    if Step(s, e).Some? {
      var s' := Step(s, e).value;
      forall id
        ensures id in s' <==> UploadedAfter(t + [e], id)
        ensures Lookup(s', id) == Some(Playing) <==> PlayingAfter(t + [e], id)
      {
        UploadedAfterSnoc(t, e, id);
        PlayingAfterSnoc(t, e, id);
        assert Lookup(s', id) == Lookup(s, id) || Touches(e.cmd, id);
      }
    }
  }

  /** The state machine and the history-based rules agree on every stream: a
      stream is valid exactly when every call in it is one the rules
      permit, and the table it ends in reports the uploaded and playing
      effects of the history. */
  lemma {:induction false} ValidTraceFollowsHeader(t: seq<Event>)
    ensures ValidTrace(t) <==> FollowsHeader(t)
    ensures ValidTrace(t) ==> Agrees(Replay(map[], t).value, t)
    decreases |t|
  {
    if t == [] {
      assert Agrees(map[], []);
    } else {
      var p := t[..|t| - 1];
      var e := t[|t| - 1];
      assert t == p + [e];
      ValidTraceFollowsHeader(p);
      ReplaySnoc(map[], p, e);
      assert FollowsHeader(t) <==> FollowsHeader(p) && Permitted(p, e) by {
        forall i | 0 <= i < |p| ensures t[..i] == p[..i] && t[i] == p[i] { }
        assert t[..|p|] == p;
      }
      if ValidTrace(p) {
        StepAgrees(Replay(map[], p).value, p, e);
      }
    }
  }

  /** Once `id` is revoked at position `i` (erased, or its upload refused),
      any later START, STOP or ERASE of it at `j` has a successful UPLOAD of
      `id` strictly between the two. */
  lemma RevokedNeedsReupload(t: seq<Event>, i: int, j: int, id: int)
    requires ValidTrace(t)
    requires 0 <= i < j < |t|
    requires Revokes(t[i], id)
    requires Touches(t[j].cmd, id) && !t[j].cmd.UploadUncomb?
    ensures exists k :: i < k < j && SucceededUpload(t[k], id)
  {
    ValidTraceFollowsHeader(t);
    assert Permitted(t[..j], t[j]);
    var h := t[..j];
    assert UploadedAfter(h, id);
    var m :| 0 <= m < |h| && SucceededUpload(h[m], id) &&
      forall k :: m < k < |h| ==> !Revokes(h[k], id);
    assert h[i] == t[i] && h[m] == t[m];
    assert i < m;
  }

  /** When the driver refuses an UPLOAD of `id`, no START_UNCOMB of `id`
      follows without a new, successful UPLOAD in between. */
  lemma NoStartAfterFailedUpload(t: seq<Event>, i: int, j: int, id: int)
    requires ValidTrace(t)
    requires 0 <= i < j < |t|
    requires t[i].cmd.UploadUncomb? && t[i].cmd.uncomb.id == id && t[i].ret != 0
    requires Starts(t[j], id)
    ensures exists k :: i < k < j && SucceededUpload(t[k], id)
  {
    RevokedNeedsReupload(t, i, j, id);
  }

  /** After ERASE_UNCOMB of `id`, a START_UNCOMB of `id` needs a new,
      successful UPLOAD in between. */
  lemma NoStartAfterErase(t: seq<Event>, i: int, j: int, id: int)
    requires ValidTrace(t)
    requires 0 <= i < j < |t|
    requires t[i].cmd.EraseUncomb? && t[i].cmd.uncomb.id == id
    requires Starts(t[j], id)
    ensures exists k :: i < k < j && SucceededUpload(t[k], id)
  {
    RevokedNeedsReupload(t, i, j, id);
  }

  /** ERASE_UNCOMB of `id` is never sent while `id` plays: every earlier
      START_UNCOMB of it was followed by a STOP_UNCOMB or ERASE_UNCOMB. */
  lemma NoEraseWhilePlaying(t: seq<Event>, i: int, j: int, id: int)
    requires ValidTrace(t)
    requires 0 <= j < i < |t|
    requires t[i].cmd.EraseUncomb? && t[i].cmd.uncomb.id == id
    requires Starts(t[j], id)
    ensures exists k :: j < k < i && Halts(t[k], id)
  {
    ValidTraceFollowsHeader(t);
    assert Permitted(t[..i], t[i]);
    var h := t[..i];
    assert !PlayingAfter(h, id);
    assert h[j] == t[j];
    var k :| j < k < |h| && Halts(h[k], id);
    assert h[k] == t[k];
  }

  /** STOP_UNCOMB leaves the effect uploaded and ready: a START_UNCOMB of it
      may follow straight away, without a new UPLOAD, and makes it play
      again. */
  lemma StopThenRestart(s: Slots, u: UncombEffect, stopRet: int, startRet: int)
    requires Step(s, Event(StopUncomb(u), stopRet)).Some?
    ensures var s' := Step(s, Event(StopUncomb(u), stopRet)).value;
      && Lookup(s', u.id) == Some(Ready)
      && Step(s', Event(StartUncomb(u), startRet)) == Some(s'[u.id := Playing])
  {
  }
}
