/** The periodic evaluator (torweather/check.py): for each kind a cadence
    covers, walk the relays whose flag for that kind is not yet set,
    decide whether the kind's condition holds on a fresh snapshot, send the
    notification and only then set the flag. */
module Checks {
  import opened Schemas
  import opened Store
  import Utils

  /** The three scheduled jobs. */
  datatype Cadence = EveryHour | EveryDay | EveryMonth

  /** The kinds each job walks, in order. The names commented out in the
      source's lists are not kinds. No job walks a kind twice, and only the
      monthly job walks none. */
  function CadenceKinds(c: Cadence): (kinds: seq<Notif>)
    ensures forall i, j :: 0 <= i < j < |kinds| ==> kinds[i] != kinds[j]
    ensures kinds == [] <==> c == EveryMonth
  {
    match c
    case EveryHour => [NodeDown]
    case EveryDay => [OutdatedVer]
    case EveryMonth => []
  }

  /** One notification handed to the notifier. */
  datatype Delivery = Delivery(fingerprint: Fingerprint, to: string, kind: Notif, relay: RelayData)

  /** The notifier: true when `send` returns, false when it raises. */
  type Sender = Delivery -> bool

  /** How a walk ends: it ran to the end of its cursor, or an exception
      left the job at relay `at`. */
  datatype Halt = Finished | Aborted(at: Fingerprint, cause: Error)

  /** The collection after a walk, the notifications sent, in order, and
      how the walk ended. */
  datatype Pass = Pass(docs: Docs, sends: seq<Delivery>, halt: Halt)

  /** Whether `kind` is due for a relay under job `c`, given its stored
      sub-document and its snapshot. The hourly job sends any kind other
      than NODE_DOWN unconditionally; the daily job acts on OUTDATED_VER
      only; the monthly job has no kinds. Reading NODE_DOWN's duration from
      a sub-document that lacks it raises KeyError. A NODE_DOWN relay is due
      once it has been down for at least one whole hour more than its stored
      duration. */
  function Decide(c: Cadence, kind: Notif, state: KindState, relay: RelayData, now: int): (r: Result<bool>)
    ensures r.Err? <==> c == EveryHour && kind == NodeDown && state.duration.None?
    ensures r.Err? ==> r.error == MissingField
    ensures c == EveryHour && kind == NodeDown && state.duration.Some? ==>
              (r == Ok(true) <==> now - relay.lastSeen >= (state.duration.value + 1) * Utils.SecondsPerHour)
    ensures c == EveryDay ==> (r == Ok(true) <==> kind == OutdatedVer && relay.versionStatus == "unrecommended")
    ensures c == EveryMonth ==> r == Ok(false)
  {
    match c
    case EveryHour =>
      if kind == NodeDown then
        match state.duration
        case None => Err(MissingField)
        case Some(limit) => Ok(Utils.NodeDownDuration(relay.lastSeen, now) > limit)
      else Ok(true)
    case EveryDay => Ok(kind == OutdatedVer && relay.versionStatus == "unrecommended")
    case EveryMonth => Ok(false)
  }

  /** Sets the flag of `kind` for relay `fp` (update_notif_status). */
  function MarkSent(docs: Docs, fp: Fingerprint, kind: Notif): Docs {
    UpdateNotifStatusStep(docs, fp, kind, true).docs
  }

  /** The collection after setting the flag of every notification in
      `sends`, in order. */
  function MarkAll(docs: Docs, sends: seq<Delivery>): Docs
    decreases |sends|
  {
    if sends == [] then docs
    else MarkAll(MarkSent(docs, sends[0].fingerprint, sends[0].kind), sends[1..])
  }

  /** The (relay, kind) pairs notified. */
  function Targets(sends: seq<Delivery>): set<(Fingerprint, Notif)> {
    set d | d in sends :: (d.fingerprint, d.kind)
  }

  /** No (relay, kind) pair is notified twice. */
  ghost predicate OncePerTarget(sends: seq<Delivery>) {
    forall i, j :: 0 <= i < j < |sends| ==>
      (sends[i].fingerprint, sends[i].kind) != (sends[j].fingerprint, sends[j].kind)
  }

  /** Without a repeated pair, there are as many notifications as pairs
      notified. */
  lemma {:induction false} OncePerTargetCount(sends: seq<Delivery>)
    requires OncePerTarget(sends)
    ensures |Targets(sends)| == |sends|
    decreases |sends|
  {
    if sends != [] {
      var rest := sends[1..];
      forall i, j | 0 <= i < j < |rest|
        ensures (rest[i].fingerprint, rest[i].kind) != (rest[j].fingerprint, rest[j].kind)
      {
        assert rest[i] == sends[i + 1] && rest[j] == sends[j + 1];
      }
      OncePerTargetCount(rest);
      var t := (sends[0].fingerprint, sends[0].kind);
      forall e | e in rest
        ensures (e.fingerprint, e.kind) != t
      {
        var j :| 0 <= j < |rest| && rest[j] == e;
        assert sends[j + 1] == e;
      }
      assert forall e :: e in sends <==> e == sends[0] || e in rest;
      assert Targets(sends) == {t} + Targets(rest);
    }
  }

  /** `after` is `before` with the flags of the `targets` set and nothing
      else changed: same relays, e-mails, kinds and durations. */
  ghost predicate MarkedFrom(before: Docs, after: Docs, targets: set<(Fingerprint, Notif)>) {
    && after.Keys == before.Keys
    && forall fp :: fp in before ==>
         && after[fp].fingerprint == before[fp].fingerprint
         && after[fp].email == before[fp].email
         && after[fp].kinds.Keys == before[fp].kinds.Keys
         && forall k :: k in before[fp].kinds ==>
              after[fp].kinds[k] ==
              before[fp].kinds[k].(sent := before[fp].kinds[k].sent || (fp, k) in targets)
  }

  /** A list of relays, each once, each with `kind` pending. */
  ghost predicate Walkable(cursor: seq<Fingerprint>, docs: Docs, kind: Notif) {
    Distinct(cursor) && forall fp :: fp in cursor ==> Pending(docs, fp, kind)
  }

  /** Every pending (relay, kind) pair of `kinds` was decided: it was
      notified exactly when its condition held. */
  ghost predicate DecidedAll(c: Cadence, kinds: seq<Notif>, docs: Docs, sends: seq<Delivery>,
                             now: int, lookup: Onionoo) {
    forall fp, k :: k in kinds && Pending(docs, fp, k) ==>
      && lookup(fp).Some?
      && ((fp, k) in Targets(sends) <==> Decide(c, k, docs[fp].kinds[k], lookup(fp).value, now) == Ok(true))
  }

  /** What happens at one relay of a walk. */
  datatype Visit = Skip | Notify(delivery: Delivery) | Stop(cause: Error)

  /** One relay of a walk: resolve the fingerprint (InvalidFingerprint
      when the lookup fails), decide, and when due hand the notification to
      the notifier. The two branches on a missing document or kind cannot be
      taken on a cursor of pending relays. */
  function VisitRelay(c: Cadence, kind: Notif, fp: Fingerprint, docs: Docs,
                      now: int, lookup: Onionoo, send: Sender): (v: Visit)
    ensures v.Notify? <==>
              && lookup(fp).Some? && fp in docs && kind in docs[fp].kinds
              && Decide(c, kind, docs[fp].kinds[kind], lookup(fp).value, now) == Ok(true)
              && send(Delivery(fp, docs[fp].email, kind, lookup(fp).value))
    ensures v.Notify? ==> v.delivery == Delivery(fp, docs[fp].email, kind, lookup(fp).value)
    ensures v.Skip? <==>
              && lookup(fp).Some? && fp in docs && kind in docs[fp].kinds
              && Decide(c, kind, docs[fp].kinds[kind], lookup(fp).value, now) == Ok(false)
    ensures v == Stop(SendFailed) ==>
              && lookup(fp).Some? && fp in docs && kind in docs[fp].kinds
              && Decide(c, kind, docs[fp].kinds[kind], lookup(fp).value, now) == Ok(true)
              && !send(Delivery(fp, docs[fp].email, kind, lookup(fp).value))
  {
    match lookup(fp)
    case None => Stop(InvalidFingerprint)
    case Some(relay) =>
      if fp !in docs then Stop(RelayNotSubscribed)
      else if kind !in docs[fp].kinds then Stop(MissingField)
      else
        match Decide(c, kind, docs[fp].kinds[kind], relay, now)
        case Err(e) => Stop(e)
        case Ok(due) =>
          if !due then Skip
          else if send(Delivery(fp, docs[fp].email, kind, relay)) then Notify(Delivery(fp, docs[fp].email, kind, relay))
          else Stop(SendFailed)
  }

  /** The walk over one cursor: visit each relay in turn, setting the flag
      after each notification; a stop ends the walk with the flags set so
      far. */
  function RunCursor(c: Cadence, kind: Notif, cursor: seq<Fingerprint>, docs: Docs,
                     now: int, lookup: Onionoo, send: Sender): (p: Pass)
    decreases |cursor|
    ensures p.docs == MarkAll(docs, p.sends)
    ensures forall d :: d in p.sends ==> d.kind == kind && d.fingerprint in cursor
  {
    if cursor == [] then Pass(docs, [], Finished)
    else
      match VisitRelay(c, kind, cursor[0], docs, now, lookup, send)
      case Stop(e) => Pass(docs, [], Aborted(cursor[0], e))
      case Skip => RunCursor(c, kind, cursor[1..], docs, now, lookup, send)
      case Notify(d) =>
        var rest := RunCursor(c, kind, cursor[1..], MarkSent(docs, cursor[0], kind), now, lookup, send);
        Pass(rest.docs, [d] + rest.sends, rest.halt)
  }

  /** The state of a walk over `cursor` that has visited its first `i`
      relays, sending `sends` and leaving `docs`: finishing the walk from
      there gives `whole`. */
  ghost predicate WalkedTo(whole: Pass, c: Cadence, kind: Notif, cursor: seq<Fingerprint>, i: nat,
                           docs: Docs, sends: seq<Delivery>, now: int, lookup: Onionoo, send: Sender)
    requires i <= |cursor|
  {
    var rest := RunCursor(c, kind, cursor[i..], docs, now, lookup, send);
    whole == Pass(rest.docs, sends + rest.sends, rest.halt)
  }

  /** A walk starts at the head of its cursor with nothing sent. */
  lemma WalkStarts(c: Cadence, kind: Notif, cursor: seq<Fingerprint>, docs: Docs,
                   now: int, lookup: Onionoo, send: Sender)
    ensures WalkedTo(RunCursor(c, kind, cursor, docs, now, lookup, send), c, kind, cursor, 0, docs, [], now, lookup, send)
  {
    assert cursor[0..] == cursor;
    assert [] + RunCursor(c, kind, cursor, docs, now, lookup, send).sends == RunCursor(c, kind, cursor, docs, now, lookup, send).sends;
  }

  /** A walk that has visited its whole cursor is finished. */
  lemma WalkEnds(whole: Pass, c: Cadence, kind: Notif, cursor: seq<Fingerprint>,
                 docs: Docs, sends: seq<Delivery>, now: int, lookup: Onionoo, send: Sender)
    requires WalkedTo(whole, c, kind, cursor, |cursor|, docs, sends, now, lookup, send)
    ensures whole == Pass(docs, sends, Finished)
  {
    assert cursor[|cursor|..] == [];
    assert sends + [] == sends;
  }

  /** A visit that stops ends the walk where it is. */
  lemma WalkStops(whole: Pass, c: Cadence, kind: Notif, cursor: seq<Fingerprint>, i: nat,
                  docs: Docs, sends: seq<Delivery>, now: int, lookup: Onionoo, send: Sender, e: Error)
    requires i < |cursor| && WalkedTo(whole, c, kind, cursor, i, docs, sends, now, lookup, send)
    requires VisitRelay(c, kind, cursor[i], docs, now, lookup, send) == Stop(e)
    ensures whole == Pass(docs, sends, Aborted(cursor[i], e))
  {
    assert cursor[i..][0] == cursor[i];
    assert sends + [] == sends;
  }

  /** A visit that skips moves on with nothing changed. */
  lemma WalkSkips(whole: Pass, c: Cadence, kind: Notif, cursor: seq<Fingerprint>, i: nat,
                  docs: Docs, sends: seq<Delivery>, now: int, lookup: Onionoo, send: Sender)
    requires i < |cursor| && WalkedTo(whole, c, kind, cursor, i, docs, sends, now, lookup, send)
    requires VisitRelay(c, kind, cursor[i], docs, now, lookup, send) == Skip
    ensures WalkedTo(whole, c, kind, cursor, i + 1, docs, sends, now, lookup, send)
  {
    assert cursor[i..][0] == cursor[i] && cursor[i..][1..] == cursor[i + 1..];
  }

  /** A visit that notifies moves on with that relay's flag set. */
  lemma WalkNotifies(whole: Pass, c: Cadence, kind: Notif, cursor: seq<Fingerprint>, i: nat,
                     docs: Docs, sends: seq<Delivery>, now: int, lookup: Onionoo, send: Sender, d: Delivery)
    requires i < |cursor| && WalkedTo(whole, c, kind, cursor, i, docs, sends, now, lookup, send)
    requires VisitRelay(c, kind, cursor[i], docs, now, lookup, send) == Notify(d)
    ensures WalkedTo(whole, c, kind, cursor, i + 1, MarkSent(docs, cursor[i], kind), sends + [d], now, lookup, send)
  {
    assert cursor[i..][0] == cursor[i] && cursor[i..][1..] == cursor[i + 1..];
    var rest := RunCursor(c, kind, cursor[i + 1..], MarkSent(docs, cursor[i], kind), now, lookup, send);
    assert (sends + [d]) + rest.sends == sends + ([d] + rest.sends);
  }

  // ---------------------------------------------------------------------
  // Marking flags

  lemma MarkSentMeaning(docs: Docs, fp: Fingerprint, kind: Notif)
    ensures MarkedFrom(docs, MarkSent(docs, fp, kind), {(fp, kind)})
  {
  }

  lemma MarkedCompose(a: Docs, b: Docs, c: Docs, t1: set<(Fingerprint, Notif)>, t2: set<(Fingerprint, Notif)>)
    requires MarkedFrom(a, b, t1) && MarkedFrom(b, c, t2)
    ensures MarkedFrom(a, c, t1 + t2)
  {
  }

  /** Setting the flags of a list of notifications sets exactly their
      flags. */
  lemma {:induction false} MarkAllMeaning(docs: Docs, sends: seq<Delivery>)
    ensures MarkedFrom(docs, MarkAll(docs, sends), Targets(sends))
    decreases |sends|
  {
    if sends == [] {
    } else {
      var d := sends[0];
      var next := MarkSent(docs, d.fingerprint, d.kind);
      MarkSentMeaning(docs, d.fingerprint, d.kind);
      MarkAllMeaning(next, sends[1..]);
      MarkedCompose(docs, next, MarkAll(next, sends[1..]), {(d.fingerprint, d.kind)}, Targets(sends[1..]));
      assert sends == [d] + sends[1..];
      assert Targets(sends) == {(d.fingerprint, d.kind)} + Targets(sends[1..]);
    }
  }

  lemma {:induction false} MarkAllAppend(docs: Docs, a: seq<Delivery>, b: seq<Delivery>)
    ensures MarkAll(MarkAll(docs, a), b) == MarkAll(docs, a + b)
    decreases |a|
  {
    if a == [] {
      assert a + b == b;
    } else {
      MarkAllAppend(MarkSent(docs, a[0].fingerprint, a[0].kind), a[1..], b);
      assert (a + b)[0] == a[0];
      assert (a + b)[1..] == a[1..] + b;
    }
  }

  /** After setting the flags of a list of notifications none of their
      pairs is pending, and well-formed documents stay well formed. */
  lemma MarkAllSettles(docs: Docs, sends: seq<Delivery>)
    ensures MarkedFrom(docs, MarkAll(docs, sends), Targets(sends))
    ensures forall d :: d in sends ==> !Pending(MarkAll(docs, sends), d.fingerprint, d.kind)
    ensures WellFormed(docs) ==> WellFormed(MarkAll(docs, sends))
  {
    var after := MarkAll(docs, sends);
    MarkAllMeaning(docs, sends);
    forall d | d in sends
      ensures !Pending(after, d.fingerprint, d.kind)
    {
      assert (d.fingerprint, d.kind) in Targets(sends);
    }
    if WellFormed(docs) {
      MarkedKeepsWellFormed(docs, after, Targets(sends));
    }
  }

  /** Setting flags keeps every document well formed. */
  lemma MarkedKeepsWellFormed(before: Docs, after: Docs, targets: set<(Fingerprint, Notif)>)
    requires MarkedFrom(before, after, targets) && WellFormed(before)
    ensures WellFormed(after)
  {
    forall fp | fp in after
      ensures DocWellFormed(fp, after[fp])
    {
      assert fp in before;
      var k :| k in before[fp].kinds;
      assert k in after[fp].kinds;
    }
  }

  /** A relay whose pair is not notified keeps its document as it was. */
  lemma MarkedUntouched(before: Docs, after: Docs, targets: set<(Fingerprint, Notif)>, fp: Fingerprint)
    requires MarkedFrom(before, after, targets) && fp in before
    requires forall k :: k in before[fp].kinds ==> (fp, k) !in targets
    ensures after[fp] == before[fp]
  {
    assert after[fp].kinds == before[fp].kinds;
  }

  /** A pair that is not notified keeps its sub-document as it was. */
  lemma UnmarkedKind(before: Docs, after: Docs, targets: set<(Fingerprint, Notif)>, fp: Fingerprint, k: Notif)
    requires MarkedFrom(before, after, targets) && fp in before && k in before[fp].kinds
    requires (fp, k) !in targets
    ensures fp in after && k in after[fp].kinds && after[fp].kinds[k] == before[fp].kinds[k]
  {
  }

  /** A pending pair that is notified, and is the only pair of its relay
      that is, has exactly that flag set. */
  lemma MarkedOne(before: Docs, after: Docs, targets: set<(Fingerprint, Notif)>, fp: Fingerprint, kind: Notif)
    requires MarkedFrom(before, after, targets) && Pending(before, fp, kind) && (fp, kind) in targets
    requires forall k :: k in before[fp].kinds && k != kind ==> (fp, k) !in targets
    ensures after[fp] == WithSent(before[fp], kind, true)
  {
    assert after[fp].kinds == before[fp].kinds[kind := before[fp].kinds[kind].(sent := true)];
  }

  // ---------------------------------------------------------------------
  // Properties of one walk

  /** After the first relay of a walkable cursor is notified and marked,
      the rest of the cursor is still walkable and its documents are as
      they were. */
  lemma WalkOn(cursor: seq<Fingerprint>, docs: Docs, kind: Notif)
    requires Walkable(cursor, docs, kind) && cursor != []
    ensures var next := MarkSent(docs, cursor[0], kind);
      && Walkable(cursor[1..], next, kind)
      && cursor[0] !in cursor[1..]
      && forall other :: other in cursor[1..] ==> other in next && next[other] == docs[other]
  {
    var next := MarkSent(docs, cursor[0], kind);
    MarkSentMeaning(docs, cursor[0], kind);
    forall other | other in cursor[1..]
      ensures other in docs && other in next && other != cursor[0] && next[other] == docs[other]
      ensures Pending(next, other, kind)
    {
      var j :| 1 <= j < |cursor| && cursor[j] == other;
      assert other in cursor;
      MarkedUntouched(docs, next, {(cursor[0], kind)}, other);
    }
    forall i, j | 0 <= i < j < |cursor[1..]|
      ensures cursor[1..][i] != cursor[1..][j]
    {
      assert cursor[1..][i] == cursor[i + 1] && cursor[1..][j] == cursor[j + 1];
    }
  }

  /** Notification `d` was justified by `docs`: its kind was pending for
      its relay, it carried the relay's stored e-mail and its fresh
      snapshot, the kind's condition held, and the notifier accepted it. */
  ghost predicate Delivered(c: Cadence, docs: Docs, now: int, lookup: Onionoo, send: Sender, d: Delivery) {
    && Pending(docs, d.fingerprint, d.kind)
    && lookup(d.fingerprint) == Some(d.relay)
    && d.to == docs[d.fingerprint].email
    && Decide(c, d.kind, docs[d.fingerprint].kinds[d.kind], d.relay, now) == Ok(true)
    && send(d)
  }

  /** Visiting pending relay `fp` for `kind` raises `cause`: the lookup
      fails (InvalidFingerprint), the decision reads a missing key
      (MissingField), or the kind is due and the notifier raises
      (SendFailed). No other exception can end a walk over pending relays. */
  ghost predicate RaisedBy(c: Cadence, kind: Notif, docs: Docs, fp: Fingerprint, cause: Error,
                           now: int, lookup: Onionoo, send: Sender) {
    && Pending(docs, fp, kind)
    && match cause
       case InvalidFingerprint => lookup(fp).None?
       case MissingField =>
         lookup(fp).Some? && Decide(c, kind, docs[fp].kinds[kind], lookup(fp).value, now) == Err(MissingField)
       case SendFailed =>
         && lookup(fp).Some?
         && Decide(c, kind, docs[fp].kinds[kind], lookup(fp).value, now) == Ok(true)
         && !send(Delivery(fp, docs[fp].email, kind, lookup(fp).value))
       case _ => false
  }

  /** Visiting relay `fp` for `kind` raises nothing: it resolves, its
      condition can be decided, and when it is due the notifier accepts. */
  ghost predicate RaisesNothing(c: Cadence, kind: Notif, docs: Docs, fp: Fingerprint,
                                now: int, lookup: Onionoo, send: Sender) {
    && fp in docs && kind in docs[fp].kinds
    && lookup(fp).Some?
    && Decide(c, kind, docs[fp].kinds[kind], lookup(fp).value, now).Ok?
    && (Decide(c, kind, docs[fp].kinds[kind], lookup(fp).value, now) == Ok(true) ==>
          send(Delivery(fp, docs[fp].email, kind, lookup(fp).value)))
  }

  /** Whether a notification is justified depends on its relay's
      document only. */
  lemma DeliveredSameDoc(c: Cadence, a: Docs, b: Docs, now: int, lookup: Onionoo, send: Sender, d: Delivery)
    requires Delivered(c, a, now, lookup, send, d)
    requires d.fingerprint in b && b[d.fingerprint] == a[d.fingerprint]
    ensures Delivered(c, b, now, lookup, send, d)
  {
  }

  /** A notification whose pair is not among those of `rest` can go in
      front of it. */
  lemma OnceCons(d: Delivery, rest: seq<Delivery>)
    requires OncePerTarget(rest) && (d.fingerprint, d.kind) !in Targets(rest)
    ensures OncePerTarget([d] + rest)
  {
    var sends := [d] + rest;
    forall i, j | 0 <= i < j < |sends|
      ensures (sends[i].fingerprint, sends[i].kind) != (sends[j].fingerprint, sends[j].kind)
    {
      if i == 0 {
        assert sends[j] in rest;
      } else {
        assert sends[i] == rest[i - 1] && sends[j] == rest[j - 1];
      }
    }
  }

  /** Every notification of a walk went to a distinct relay whose kind was
      pending, carried that relay's stored e-mail and fresh snapshot, was
      due, and was accepted by the notifier. */
  lemma {:induction false} PassDeliveries(c: Cadence, kind: Notif, cursor: seq<Fingerprint>, docs: Docs,
                                          now: int, lookup: Onionoo, send: Sender)
    requires Walkable(cursor, docs, kind)
    ensures var p := RunCursor(c, kind, cursor, docs, now, lookup, send);
      && OncePerTarget(p.sends)
      && forall d :: d in p.sends ==> Delivered(c, docs, now, lookup, send, d)
    decreases |cursor|
  {
    if cursor != [] {
      var fp := cursor[0];
      match VisitRelay(c, kind, fp, docs, now, lookup, send)
      case Stop(_) =>
      case Skip =>
        PassDeliveries(c, kind, cursor[1..], docs, now, lookup, send);
      case Notify(d) =>
        var next := MarkSent(docs, fp, kind);
        WalkOn(cursor, docs, kind);
        PassDeliveries(c, kind, cursor[1..], next, now, lookup, send);
        var rest := RunCursor(c, kind, cursor[1..], next, now, lookup, send);
        OnceCons(d, rest.sends);
        forall e | e in rest.sends
          ensures Delivered(c, docs, now, lookup, send, e)
        {
          assert e.fingerprint in cursor[1..];
          DeliveredSameDoc(c, next, docs, now, lookup, send, e);
        }
    }
  }

  /** A walk that runs to the end of its cursor notified a relay exactly
      when the kind's condition held for it. */
  lemma {:induction false} PassDecidesEveryRelay(c: Cadence, kind: Notif, cursor: seq<Fingerprint>, docs: Docs,
                                                 now: int, lookup: Onionoo, send: Sender)
    requires Walkable(cursor, docs, kind)
    requires RunCursor(c, kind, cursor, docs, now, lookup, send).halt == Finished
    ensures var p := RunCursor(c, kind, cursor, docs, now, lookup, send);
      forall fp :: fp in cursor ==>
        && lookup(fp).Some?
        && ((fp, kind) in Targets(p.sends) <==>
            Decide(c, kind, docs[fp].kinds[kind], lookup(fp).value, now) == Ok(true))
    decreases |cursor|
  {
    if cursor != [] {
      var fp := cursor[0];
      var p := RunCursor(c, kind, cursor, docs, now, lookup, send);
      match VisitRelay(c, kind, fp, docs, now, lookup, send)
      case Skip =>
        PassDecidesEveryRelay(c, kind, cursor[1..], docs, now, lookup, send);
        assert (fp, kind) !in Targets(p.sends);
      case Notify(d) =>
        var next := MarkSent(docs, fp, kind);
        WalkOn(cursor, docs, kind);
        PassDecidesEveryRelay(c, kind, cursor[1..], next, now, lookup, send);
        var rest := RunCursor(c, kind, cursor[1..], next, now, lookup, send);
        assert Targets(p.sends) == {(fp, kind)} + Targets(rest.sends);
    }
  }

  /** Where a walk stops early: at a relay of the cursor that was not
      notified and whose document is unchanged, so its flag is still unset,
      and only because visiting it raised: its lookup failed, its decision
      read a missing key, or its condition held and the notifier raised. */
  lemma {:induction false} PassHalt(c: Cadence, kind: Notif, cursor: seq<Fingerprint>, docs: Docs,
                                    now: int, lookup: Onionoo, send: Sender)
    requires Walkable(cursor, docs, kind)
    requires RunCursor(c, kind, cursor, docs, now, lookup, send).halt.Aborted?
    ensures var p := RunCursor(c, kind, cursor, docs, now, lookup, send);
      var at := p.halt.at;
      && at in cursor
      && (at, kind) !in Targets(p.sends)
      && at in p.docs && p.docs[at] == docs[at]
      && Pending(p.docs, at, kind)
      && RaisedBy(c, kind, docs, at, p.halt.cause, now, lookup, send)
      && (p.halt.cause == SendFailed ==>
            && lookup(at).Some?
            && Decide(c, kind, docs[at].kinds[kind], lookup(at).value, now) == Ok(true)
            && !send(Delivery(at, docs[at].email, kind, lookup(at).value)))
    decreases |cursor|
  {
    var fp := cursor[0];
    var p := RunCursor(c, kind, cursor, docs, now, lookup, send);
    match VisitRelay(c, kind, fp, docs, now, lookup, send)
    case Stop(_) =>
    case Skip =>
      PassHalt(c, kind, cursor[1..], docs, now, lookup, send);
    case Notify(d) =>
      var next := MarkSent(docs, fp, kind);
      WalkOn(cursor, docs, kind);
      PassHalt(c, kind, cursor[1..], next, now, lookup, send);
      var rest := RunCursor(c, kind, cursor[1..], next, now, lookup, send);
      assert Targets(p.sends) == {(fp, kind)} + Targets(rest.sends);
  }

  /** A walk runs to the end of its cursor unless visiting some relay of
      the cursor raises. */
  lemma PassFinishes(c: Cadence, kind: Notif, cursor: seq<Fingerprint>, docs: Docs,
                     now: int, lookup: Onionoo, send: Sender)
    requires Walkable(cursor, docs, kind)
    ensures || RunCursor(c, kind, cursor, docs, now, lookup, send).halt == Finished
            || exists fp :: fp in cursor && !RaisesNothing(c, kind, docs, fp, now, lookup, send)
  {
    var p := RunCursor(c, kind, cursor, docs, now, lookup, send);
    if p.halt.Aborted? {
      PassHalt(c, kind, cursor, docs, now, lookup, send);
      assert !RaisesNothing(c, kind, docs, p.halt.at, now, lookup, send);
    }
  }

  /** A walk changes nothing but the flags of the relays it notified: each
      of those has exactly its `kind` flag set, every other document is as
      it was. */
  lemma PassOnlySetsFlags(c: Cadence, kind: Notif, cursor: seq<Fingerprint>, docs: Docs,
                          now: int, lookup: Onionoo, send: Sender)
    requires Walkable(cursor, docs, kind)
    ensures var p := RunCursor(c, kind, cursor, docs, now, lookup, send);
      && p.docs.Keys == docs.Keys
      && forall fp :: fp in docs ==>
           p.docs[fp] == (if (fp, kind) in Targets(p.sends) then WithSent(docs[fp], kind, true) else docs[fp])
  {
    var p := RunCursor(c, kind, cursor, docs, now, lookup, send);
    var targets := Targets(p.sends);
    MarkAllMeaning(docs, p.sends);
    PassDeliveries(c, kind, cursor, docs, now, lookup, send);
    assert forall t :: t in targets ==> t.1 == kind;
    forall fp | fp in docs
      ensures p.docs[fp] == (if (fp, kind) in targets then WithSent(docs[fp], kind, true) else docs[fp])
    {
      if (fp, kind) in targets {
        var d :| d in p.sends && (d.fingerprint, d.kind) == (fp, kind);
        assert Delivered(c, docs, now, lookup, send, d);
        MarkedOne(docs, p.docs, targets, fp, kind);
      } else {
        MarkedUntouched(docs, p.docs, targets, fp);
      }
    }
  }

  /** At most once: a second walk over the relays still pending after a
      first walk notifies none of the relays the first walk notified, at
      whatever time and with whatever snapshots and notifier. */
  lemma NoRedelivery(c: Cadence, kind: Notif, docs: Docs,
                     cursor1: seq<Fingerprint>, now1: int, lookup1: Onionoo, send1: Sender,
                     cursor2: seq<Fingerprint>, now2: int, lookup2: Onionoo, send2: Sender)
    requires Walkable(cursor1, docs, kind)
    requires Walkable(cursor2, RunCursor(c, kind, cursor1, docs, now1, lookup1, send1).docs, kind)
    ensures var p1 := RunCursor(c, kind, cursor1, docs, now1, lookup1, send1);
      var p2 := RunCursor(c, kind, cursor2, p1.docs, now2, lookup2, send2);
      Targets(p1.sends) !! Targets(p2.sends)
  {
    var p1 := RunCursor(c, kind, cursor1, docs, now1, lookup1, send1);
    var p2 := RunCursor(c, kind, cursor2, p1.docs, now2, lookup2, send2);
    PassDeliveries(c, kind, cursor1, docs, now1, lookup1, send1);
    MarkAllMeaning(docs, p1.sends);
    forall t | t in Targets(p1.sends)
      ensures t !in Targets(p2.sends)
    {
      var d :| d in p1.sends && (d.fingerprint, d.kind) == t;
      assert !Pending(p1.docs, d.fingerprint, kind);
    }
  }

  // ---------------------------------------------------------------------
  // A job: the walks for its kinds, one after another

  /** Every notification in `sends` is for one of `kinds`, went to a relay
      whose kind was pending in `start`, with that relay's e-mail and
      snapshot, was due, and was accepted by the notifier. */
  ghost predicate Justified(c: Cadence, kinds: seq<Notif>, start: Docs, sends: seq<Delivery>,
                            now: int, lookup: Onionoo, send: Sender) {
    forall d :: d in sends ==> d.kind in kinds && Delivered(c, start, now, lookup, send, d)
  }

  /** Two lists of notifications with no pair in common, each notifying
      every pair at most once, together notify every pair at most once. */
  lemma OnceAppend(a: seq<Delivery>, b: seq<Delivery>)
    requires OncePerTarget(a) && OncePerTarget(b) && Targets(a) !! Targets(b)
    ensures OncePerTarget(a + b)
  {
    var all := a + b;
    forall i, j | 0 <= i < j < |all|
      ensures (all[i].fingerprint, all[i].kind) != (all[j].fingerprint, all[j].kind)
    {
      if i < |a| && j >= |a| {
        assert all[i] in a && all[j] in b;
        assert (all[i].fingerprint, all[i].kind) in Targets(a);
        assert (all[j].fingerprint, all[j].kind) in Targets(b);
      } else if i >= |a| {
        assert all[i] == b[i - |a|] && all[j] == b[j - |a|];
      } else {
        assert all[i] == a[i] && all[j] == a[j];
      }
    }
  }

  /** A notification justified by the collection after earlier walks, for
      a pair those walks did not notify, is justified by the collection at
      the start of the job. */
  lemma DeliveredEarlier(c: Cadence, start: Docs, before: Docs, targets: set<(Fingerprint, Notif)>,
                         now: int, lookup: Onionoo, send: Sender, d: Delivery)
    requires MarkedFrom(start, before, targets) && (d.fingerprint, d.kind) !in targets
    requires Delivered(c, before, now, lookup, send, d)
    ensures Delivered(c, start, now, lookup, send, d)
  {
    UnmarkedKind(start, before, targets, d.fingerprint, d.kind);
  }

  /** The walks so far notified only pairs of the kinds walked so far. */
  lemma KindsSoFar(c: Cadence, kinds: seq<Notif>, i: nat, start: Docs, sends: seq<Delivery>,
                   now: int, lookup: Onionoo, send: Sender, fp: Fingerprint)
    requires i < |kinds| && kinds[i] !in kinds[..i]
    requires Justified(c, kinds[..i], start, sends, now, lookup, send)
    ensures (fp, kinds[i]) !in Targets(sends)
  {
    forall d | d in sends
      ensures (d.fingerprint, d.kind) != (fp, kinds[i])
    {
      assert d.kind in kinds[..i];
    }
  }

  /** In a list without repeats, no entry occurs before its own index. */
  lemma FirstOccurrence(kinds: seq<Notif>, i: nat)
    requires forall a, b :: 0 <= a < b < |kinds| ==> kinds[a] != kinds[b]
    requires i < |kinds|
    ensures kinds[i] !in kinds[..i]
  {
    forall j | 0 <= j < i
      ensures kinds[..i][j] != kinds[i]
    {
      assert kinds[..i][j] == kinds[j];
    }
  }

  /** Notifications justified by the first `i` kinds are justified by all
      of them. */
  lemma JustifiedWiden(c: Cadence, kinds: seq<Notif>, i: nat, start: Docs, sends: seq<Delivery>,
                       now: int, lookup: Onionoo, send: Sender)
    requires i <= |kinds|
    requires Justified(c, kinds[..i], start, sends, now, lookup, send)
    ensures Justified(c, kinds, start, sends, now, lookup, send)
  {
    forall d | d in sends
      ensures d.kind in kinds
    {
      assert d.kind in kinds[..i];
    }
  }

  /** One more walk, for a kind not walked before, over the cursor of the
      collection left by the earlier walks, keeps the job's properties. */
  lemma TickStep(c: Cadence, kinds: seq<Notif>, i: nat, start: Docs, sends: seq<Delivery>,
                 cursor: seq<Fingerprint>, now: int, lookup: Onionoo, send: Sender)
    requires i < |kinds| && kinds[i] !in kinds[..i]
    requires OncePerTarget(sends)
    requires Justified(c, kinds[..i], start, sends, now, lookup, send)
    requires IsCursor(cursor, MarkAll(start, sends), kinds[i])
    ensures var p := RunCursor(c, kinds[i], cursor, MarkAll(start, sends), now, lookup, send);
      && p.docs == MarkAll(start, sends + p.sends)
      && OncePerTarget(sends + p.sends)
      && Justified(c, kinds[..i + 1], start, sends + p.sends, now, lookup, send)
  {
    var kind := kinds[i];
    var before := MarkAll(start, sends);
    var p := RunCursor(c, kind, cursor, before, now, lookup, send);
    MarkAllMeaning(start, sends);
    PassDeliveries(c, kind, cursor, before, now, lookup, send);
    MarkAllAppend(start, sends, p.sends);
    assert kinds[..i + 1] == kinds[..i] + [kind];
    forall t | t in Targets(p.sends)
      ensures t !in Targets(sends)
    {
      KindsSoFar(c, kinds, i, start, sends, now, lookup, send, t.0);
    }
    OnceAppend(sends, p.sends);
    forall d | d in sends + p.sends
      ensures d.kind in kinds[..i + 1] && Delivered(c, start, now, lookup, send, d)
    {
      if d in p.sends {
        KindsSoFar(c, kinds, i, start, sends, now, lookup, send, d.fingerprint);
        DeliveredEarlier(c, start, before, Targets(sends), now, lookup, send, d);
      }
    }
  }

  /** A job that ended early ended at a pair of one of its kinds that was
      pending at the start of the job and not notified, and visiting it
      raised the cause the job ended with. */
  ghost predicate StoppedFor(c: Cadence, kinds: seq<Notif>, start: Docs, sends: seq<Delivery>, halt: Halt,
                             now: int, lookup: Onionoo, send: Sender) {
    halt.Aborted? ==>
      exists k :: k in kinds && (halt.at, k) !in Targets(sends) &&
        RaisedBy(c, k, start, halt.at, halt.cause, now, lookup, send)
  }

  /** A walk for a kind not walked before that stops early ends the job
      for a reason found in the collection at the start of the job. */
  lemma TickAborted(c: Cadence, kinds: seq<Notif>, i: nat, start: Docs, sends: seq<Delivery>,
                    cursor: seq<Fingerprint>, now: int, lookup: Onionoo, send: Sender)
    requires i < |kinds| && kinds[i] !in kinds[..i]
    requires Justified(c, kinds[..i], start, sends, now, lookup, send)
    requires IsCursor(cursor, MarkAll(start, sends), kinds[i])
    requires RunCursor(c, kinds[i], cursor, MarkAll(start, sends), now, lookup, send).halt.Aborted?
    ensures var p := RunCursor(c, kinds[i], cursor, MarkAll(start, sends), now, lookup, send);
      StoppedFor(c, kinds, start, sends + p.sends, p.halt, now, lookup, send)
  {
    var kind := kinds[i];
    var before := MarkAll(start, sends);
    var p := RunCursor(c, kind, cursor, before, now, lookup, send);
    var at := p.halt.at;
    MarkAllMeaning(start, sends);
    PassHalt(c, kind, cursor, before, now, lookup, send);
    KindsSoFar(c, kinds, i, start, sends, now, lookup, send, at);
    TargetsAppend(sends, p.sends);
    assert at in start;
    UnmarkedKind(start, before, Targets(sends), at, kind);
    assert RaisedBy(c, kind, start, at, p.halt.cause, now, lookup, send);
  }

  /** The notifications of `sends` and `more` together, as pairs. */
  lemma TargetsAppend(sends: seq<Delivery>, more: seq<Delivery>)
    ensures Targets(sends + more) == Targets(sends) + Targets(more)
  {
    assert forall d :: d in sends + more <==> d in sends || d in more;
  }

  /** A pair of a kind walked earlier is notified by the job so far
      exactly when the earlier walks notified it. */
  lemma DecidedEarlierKind(c: Cadence, kinds: seq<Notif>, i: nat, start: Docs, sends: seq<Delivery>,
                           more: seq<Delivery>, now: int, lookup: Onionoo, fp: Fingerprint, k: Notif)
    requires i < |kinds| && k in kinds[..i] && kinds[i] !in kinds[..i]
    requires DecidedAll(c, kinds[..i], start, sends, now, lookup) && Pending(start, fp, k)
    requires forall d :: d in more ==> d.kind == kinds[i]
    ensures && lookup(fp).Some?
            && ((fp, k) in Targets(sends + more) <==> Decide(c, k, start[fp].kinds[k], lookup(fp).value, now) == Ok(true))
  {
    TargetsAppend(sends, more);
    assert (fp, k) !in Targets(more);
  }

  /** A pending pair of the kind just walked is notified by the job so far
      exactly when its condition held. */
  lemma DecidedThisKind(c: Cadence, kinds: seq<Notif>, i: nat, start: Docs, sends: seq<Delivery>,
                        cursor: seq<Fingerprint>, now: int, lookup: Onionoo, send: Sender, fp: Fingerprint)
    requires i < |kinds| && kinds[i] !in kinds[..i]
    requires Justified(c, kinds[..i], start, sends, now, lookup, send)
    requires IsCursor(cursor, MarkAll(start, sends), kinds[i])
    requires RunCursor(c, kinds[i], cursor, MarkAll(start, sends), now, lookup, send).halt == Finished
    requires Pending(start, fp, kinds[i])
    ensures var p := RunCursor(c, kinds[i], cursor, MarkAll(start, sends), now, lookup, send);
      && lookup(fp).Some?
      && ((fp, kinds[i]) in Targets(sends + p.sends) <==>
          Decide(c, kinds[i], start[fp].kinds[kinds[i]], lookup(fp).value, now) == Ok(true))
  {
    var kind := kinds[i];
    var before := MarkAll(start, sends);
    var p := RunCursor(c, kind, cursor, before, now, lookup, send);
    MarkAllMeaning(start, sends);
    KindsSoFar(c, kinds, i, start, sends, now, lookup, send, fp);
    UnmarkedKind(start, before, Targets(sends), fp, kind);
    assert fp in cursor;
    PassDecidesEveryRelay(c, kind, cursor, before, now, lookup, send);
    TargetsAppend(sends, p.sends);
  }

  /** A walk for a kind not walked before that runs to the end of its
      cursor decides every pending pair of that kind, and notifies nothing
      of the earlier kinds, so what earlier walks decided stays decided. */
  lemma TickDecided(c: Cadence, kinds: seq<Notif>, i: nat, start: Docs, sends: seq<Delivery>,
                    cursor: seq<Fingerprint>, now: int, lookup: Onionoo, send: Sender)
    requires i < |kinds| && kinds[i] !in kinds[..i]
    requires Justified(c, kinds[..i], start, sends, now, lookup, send)
    requires DecidedAll(c, kinds[..i], start, sends, now, lookup)
    requires IsCursor(cursor, MarkAll(start, sends), kinds[i])
    requires RunCursor(c, kinds[i], cursor, MarkAll(start, sends), now, lookup, send).halt == Finished
    ensures var p := RunCursor(c, kinds[i], cursor, MarkAll(start, sends), now, lookup, send);
      DecidedAll(c, kinds[..i + 1], start, sends + p.sends, now, lookup)
  {
    var p := RunCursor(c, kinds[i], cursor, MarkAll(start, sends), now, lookup, send);
    assert kinds[..i + 1] == kinds[..i] + [kinds[i]];
    forall fp, k | k in kinds[..i + 1] && Pending(start, fp, k)
      ensures && lookup(fp).Some?
              && ((fp, k) in Targets(sends + p.sends) <==> Decide(c, k, start[fp].kinds[k], lookup(fp).value, now) == Ok(true))
    {
      if k == kinds[i] {
        DecidedThisKind(c, kinds, i, start, sends, cursor, now, lookup, send, fp);
      } else {
        DecidedEarlierKind(c, kinds, i, start, sends, p.sends, now, lookup, fp, k);
      }
    }
  }

  /** The default threshold at work: a NODE_DOWN subscription with the default
      duration of 48 hours fires after 49 hours down and not after 47 or
      48. */
  lemma NodeDownThreshold(state: KindState, relay: RelayData, now: int)
    requires state.duration == Some(DefaultDuration)
    ensures relay.lastSeen == now - 49 * 3600 ==> Decide(EveryHour, NodeDown, state, relay, now) == Ok(true)
    ensures relay.lastSeen == now - 48 * 3600 ==> Decide(EveryHour, NodeDown, state, relay, now) == Ok(false)
    ensures relay.lastSeen == now - 47 * 3600 ==> Decide(EveryHour, NodeDown, state, relay, now) == Ok(false)
  {
    Utils.WholeHours(relay.lastSeen, 49, 0);
    Utils.WholeHours(relay.lastSeen, 48, 0);
    Utils.WholeHours(relay.lastSeen, 47, 0);
  }

  /** The hourly job decides NODE_DOWN on the down duration, strictly
      greater than the stored hours; the daily job decides OUTDATED_VER on
      the version status; neither decides anything else about the snapshot. */
  lemma DecideConditions(state: KindState, relay: RelayData, now: int)
    ensures state.duration.Some? ==>
      (Decide(EveryHour, NodeDown, state, relay, now) == Ok(true) <==>
       Utils.NodeDownDuration(relay.lastSeen, now) > state.duration.value)
    ensures state.duration.None? ==> Decide(EveryHour, NodeDown, state, relay, now) == Err(MissingField)
    ensures Decide(EveryDay, OutdatedVer, state, relay, now) == Ok(relay.versionStatus == "unrecommended")
    ensures forall k :: Decide(EveryMonth, k, state, relay, now) == Ok(false)
  {
  }

  /** Each job walks only its own kinds: the hourly job NODE_DOWN, the
      daily job OUTDATED_VER, the monthly job none. Every kind belongs to
      exactly one job. */
  lemma JobsPartitionKinds()
    ensures forall k :: k in CadenceKinds(EveryHour) <==> k == NodeDown
    ensures forall k :: k in CadenceKinds(EveryDay) <==> k == OutdatedVer
    ensures CadenceKinds(EveryMonth) == []
  {
  }

  // ---------------------------------------------------------------------
  // The scheduled jobs

  class Check {
    const collection: Collection

    constructor (collection: Collection)
      ensures this.collection == collection
    {
      this.collection := collection;
    }

    /** The inner loop: one walk over the cursor of relays whose `kind` is
        pending. */
    method RunKind(c: Cadence, kind: Notif, now: int, lookup: Onionoo, send: Sender)
      returns (cursor: seq<Fingerprint>, sends: seq<Delivery>, halt: Halt)
      modifies collection
      ensures IsCursor(cursor, old(collection.docs), kind)
      ensures Pass(collection.docs, sends, halt) == RunCursor(c, kind, cursor, old(collection.docs), now, lookup, send)
    {
      cursor := collection.Find(kind);
      ghost var whole := RunCursor(c, kind, cursor, collection.docs, now, lookup, send);
      sends, halt := [], Finished;
      WalkStarts(c, kind, cursor, collection.docs, now, lookup, send);
      var i := 0;
      while i < |cursor|
        invariant 0 <= i <= |cursor|
        invariant WalkedTo(whole, c, kind, cursor, i, collection.docs, sends, now, lookup, send)
        decreases |cursor| - i
      {
        var fp := cursor[i];
        var visit := Visit(c, kind, fp, now, lookup, send);
        match visit {
          case Stop(e) =>
            WalkStops(whole, c, kind, cursor, i, collection.docs, sends, now, lookup, send, e);
            halt := Aborted(fp, e);
            return;
          case Skip =>
            WalkSkips(whole, c, kind, cursor, i, collection.docs, sends, now, lookup, send);
          case Notify(d) =>
            WalkNotifies(whole, c, kind, cursor, i, collection.docs, sends, now, lookup, send, d);
            MarkDelivered(fp, kind);
            sends := sends + [d];
        }
        i := i + 1;
      }
      WalkEnds(whole, c, kind, cursor, collection.docs, sends, now, lookup, send);
    }

    /** `relay.update_notif_status(kind)` after a notification: sets the
        flag of `kind` for relay `fp`. */
    method MarkDelivered(fp: Fingerprint, kind: Notif)
      modifies collection
      ensures collection.docs == MarkSent(old(collection.docs), fp, kind)
    {
      var relay := new Relay(fp, collection);
      var _ := relay.UpdateNotifStatus(kind);
    }

    /** One relay of a walk: resolve the fingerprint, read the stored
        sub-document, decide, and send when due. It is the statement-level
        counterpart of VisitRelay, which the walk specification uses. */
    method Visit(c: Cadence, kind: Notif, fp: Fingerprint, now: int, lookup: Onionoo, send: Sender)
      returns (v: Visit)
      ensures v == VisitRelay(c, kind, fp, collection.docs, now, lookup, send)
    {
      var data := lookup(fp);
      if data.None? {
        return Stop(InvalidFingerprint);
      }
      if fp !in collection.docs {
        return Stop(RelayNotSubscribed);
      }
      var doc := collection.docs[fp];
      if kind !in doc.kinds {
        return Stop(MissingField);
      }
      var decided := Decide(c, kind, doc.kinds[kind], data.value, now);
      if decided.Err? {
        return Stop(decided.error);
      }
      if !decided.value {
        return Skip;
      }
      var d := Delivery(fp, doc.email, kind, data.value);
      if !send(d) {
        return Stop(SendFailed);
      }
      return Notify(d);
    }

    /** The outer loop: the walks for the job's kinds, one after another;
        an exception ends the job. */
    method Tick(c: Cadence, now: int, lookup: Onionoo, send: Sender) returns (sends: seq<Delivery>, halt: Halt)
      modifies collection
      ensures collection.docs == MarkAll(old(collection.docs), sends)
      ensures MarkedFrom(old(collection.docs), collection.docs, Targets(sends))
      ensures OncePerTarget(sends)
      ensures Justified(c, CadenceKinds(c), old(collection.docs), sends, now, lookup, send)
      ensures forall d :: d in sends ==> !Pending(collection.docs, d.fingerprint, d.kind)
      ensures halt == Finished ==> DecidedAll(c, CadenceKinds(c), old(collection.docs), sends, now, lookup)
      ensures StoppedFor(c, CadenceKinds(c), old(collection.docs), sends, halt, now, lookup, send)
      ensures (forall k, fp :: k in CadenceKinds(c) && Pending(old(collection.docs), fp, k) ==>
                 RaisesNothing(c, k, old(collection.docs), fp, now, lookup, send)) ==>
                halt == Finished
      ensures CadenceKinds(c) == [] ==> sends == [] && halt == Finished
      ensures old(collection.Valid()) ==> collection.Valid()
    {
      var kinds := CadenceKinds(c);
      ghost var start := collection.docs;
      sends, halt := [], Finished;
      var i := 0;
      while i < |kinds| && halt == Finished
        invariant 0 <= i <= |kinds|
        invariant collection.docs == MarkAll(start, sends)
        invariant OncePerTarget(sends)
        invariant Justified(c, kinds[..i], start, sends, now, lookup, send)
        invariant halt == Finished ==> DecidedAll(c, kinds[..i], start, sends, now, lookup)
        invariant StoppedFor(c, kinds, start, sends, halt, now, lookup, send)
        invariant i == 0 ==> sends == [] && halt == Finished
        decreases |kinds| - i
      {
        FirstOccurrence(kinds, i);
        var cursor, s, h := RunKind(c, kinds[i], now, lookup, send);
        TickStep(c, kinds, i, start, sends, cursor, now, lookup, send);
        if h == Finished {
          TickDecided(c, kinds, i, start, sends, cursor, now, lookup, send);
        } else {
          TickAborted(c, kinds, i, start, sends, cursor, now, lookup, send);
        }
        sends, halt := sends + s, h;
        i := i + 1;
      }
      if halt == Finished {
        assert kinds[..i] == kinds;
      }
      JustifiedWiden(c, kinds, i, start, sends, now, lookup, send);
      MarkAllSettles(start, sends);
    }

    /** The hourly job: NODE_DOWN notifications for relays down longer
        than their stored duration. */
    method Hourly(now: int, lookup: Onionoo, send: Sender) returns (sends: seq<Delivery>, halt: Halt)
      modifies collection
      ensures MarkedFrom(old(collection.docs), collection.docs, Targets(sends))
      ensures OncePerTarget(sends)
      ensures forall d :: d in sends ==>
        && d.kind == NodeDown
        && Pending(old(collection.docs), d.fingerprint, NodeDown)
        && !Pending(collection.docs, d.fingerprint, NodeDown)
        && lookup(d.fingerprint) == Some(d.relay)
        && old(collection.docs)[d.fingerprint].kinds[NodeDown].duration.Some?
        && Utils.NodeDownDuration(d.relay.lastSeen, now) > old(collection.docs)[d.fingerprint].kinds[NodeDown].duration.value
      ensures halt == Finished ==> DecidedAll(EveryHour, [NodeDown], old(collection.docs), sends, now, lookup)
      ensures Justified(EveryHour, [NodeDown], old(collection.docs), sends, now, lookup, send)
      ensures halt.Aborted? ==>
        && (halt.at, NodeDown) !in Targets(sends)
        && RaisedBy(EveryHour, NodeDown, old(collection.docs), halt.at, halt.cause, now, lookup, send)
      ensures (forall fp :: Pending(old(collection.docs), fp, NodeDown) ==>
                 RaisesNothing(EveryHour, NodeDown, old(collection.docs), fp, now, lookup, send)) ==>
                halt == Finished
      ensures old(collection.Valid()) ==> collection.Valid()
    {
      sends, halt := Tick(EveryHour, now, lookup, send);
    }

    /** The daily job: OUTDATED_VER notifications for relays whose version
        is "unrecommended". */
    method Daily(now: int, lookup: Onionoo, send: Sender) returns (sends: seq<Delivery>, halt: Halt)
      modifies collection
      ensures MarkedFrom(old(collection.docs), collection.docs, Targets(sends))
      ensures OncePerTarget(sends)
      ensures forall d :: d in sends ==>
        && d.kind == OutdatedVer
        && Pending(old(collection.docs), d.fingerprint, OutdatedVer)
        && !Pending(collection.docs, d.fingerprint, OutdatedVer)
        && lookup(d.fingerprint) == Some(d.relay)
        && d.relay.versionStatus == "unrecommended"
      ensures halt == Finished ==> DecidedAll(EveryDay, [OutdatedVer], old(collection.docs), sends, now, lookup)
      ensures Justified(EveryDay, [OutdatedVer], old(collection.docs), sends, now, lookup, send)
      ensures halt.Aborted? ==>
        && (halt.at, OutdatedVer) !in Targets(sends)
        && RaisedBy(EveryDay, OutdatedVer, old(collection.docs), halt.at, halt.cause, now, lookup, send)
      ensures (forall fp :: Pending(old(collection.docs), fp, OutdatedVer) ==>
                 RaisesNothing(EveryDay, OutdatedVer, old(collection.docs), fp, now, lookup, send)) ==>
                halt == Finished
      ensures old(collection.Valid()) ==> collection.Valid()
    {
      sends, halt := Tick(EveryDay, now, lookup, send);
    }

    /** The monthly job has no kinds and does nothing. */
    method Monthly(now: int, lookup: Onionoo, send: Sender) returns (sends: seq<Delivery>, halt: Halt)
      modifies collection
      ensures sends == [] && halt == Finished
      ensures collection.docs == old(collection.docs)
    {
      sends, halt := Tick(EveryMonth, now, lookup, send);
    }
  }

  /** A relay subscribed to NODE_DOWN with the default 48 hours, last seen
      50 hours ago, that resolves, with a notifier that accepts: the hourly
      job sends it exactly one notification, to the subscribed address. */
  method NodeDownScenario(fp: Fingerprint, email: string, relay: RelayData, now: int)
    returns (sends: seq<Delivery>, halt: Halt)
    requires relay.lastSeen == now - 50 * Utils.SecondsPerHour
    ensures halt == Finished
    ensures sends == [Delivery(fp, email, NodeDown, relay)]
  {
    var collection := new Collection();
    var r := new Relay(fp, collection);
    var subscribed := r.Subscribe(email, [NodeDown], DefaultDuration, _ => true);
    ghost var start := collection.docs;
    assert Pending(start, fp, NodeDown);
    assert forall other :: other in start ==> other == fp;
    Utils.WholeHours(relay.lastSeen, 50, 0);
    var check := new Check(collection);
    sends, halt := check.Hourly(now, _ => Some(relay), _ => true);
    var d := Delivery(fp, email, NodeDown, relay);
    assert (fp, NodeDown) in Targets(sends);
    forall e | e in sends
      ensures e == d
    {
      assert Delivered(EveryHour, start, now, _ => Some(relay), _ => true, e);
    }
    assert Targets(sends) == {(fp, NodeDown)};
    OncePerTargetCount(sends);
  }
}
