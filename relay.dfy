/** The subscription store (torweather/relay.py): one document per relay
    fingerprint in the "subscribers" collection, holding the operator's
    e-mail and one sub-document per subscribed notification kind. */
module Store {
  import opened Schemas

  type Fingerprint = string

  /** The external relay lookup: the snapshot for a fingerprint, or None
      when the details endpoint answers with an error or an empty list. */
  type Onionoo = Fingerprint -> Option<RelayData>

  /** The external e-mail validator (syntax and DNS). */
  type EmailValidator = string -> bool

  /** A kind's sub-document: the sent flag and, for NODE_DOWN only, the
      number of hours the relay must be down before the notification is
      due. */
  datatype KindState = KindState(sent: bool, duration: Option<int>)

  /** A stored subscription document. */
  datatype Doc = Doc(fingerprint: Fingerprint, email: string, kinds: map<Notif, KindState>)

  type Docs = map<Fingerprint, Doc>

  datatype Error =
    | InvalidEmail
    | InvalidFingerprint
    | RelaySubscribed
    | RelayNotSubscribed
    | NotifNotSubscribed
    | MissingField     // a key read from a document is absent (KeyError)
    | UnknownNotif     // a kind name no member has (AttributeError)
    | SendFailed       // the notifier raised
    | NotAnInteger     // int() rejects a form field (ValueError, TypeError)
    | NoSuchOption     // the page has no option for a form value (AttributeError)

  datatype Result<+T> = Ok(value: T) | Err(error: Error)

  /** The outcome of a store operation: its result and the new collection. */
  datatype Step<+T> = Step(result: Result<T>, docs: Docs)

  const DefaultDuration: int := 48

  /** The sub-document a freshly subscribed kind gets. */
  function FreshState(kind: Notif, duration: int): KindState {
    KindState(false, if kind == NodeDown then Some(duration) else None)
  }

  /** The kind sub-documents of a fresh subscription to `notifs`. */
  function FreshKinds(notifs: seq<Notif>, duration: int): map<Notif, KindState> {
    map k | k in notifs :: FreshState(k, duration)
  }

  /** A document keeps the fingerprint it is stored under, at least one
      kind, and a duration exactly on its NODE_DOWN kind. */
  ghost predicate DocWellFormed(fp: Fingerprint, doc: Doc) {
    && doc.fingerprint == fp
    && doc.kinds != map[]
    && forall k :: k in doc.kinds ==> (doc.kinds[k].duration.Some? <==> k == NodeDown)
  }

  ghost predicate WellFormed(docs: Docs) {
    forall fp :: fp in docs ==> DocWellFormed(fp, docs[fp])
  }

  /** A kind the evaluator still has to look at for this relay. */
  predicate Pending(docs: Docs, fp: Fingerprint, kind: Notif) {
    fp in docs && kind in docs[fp].kinds && !docs[fp].kinds[kind].sent
  }

  /** `cursor` lists relays without repetition. */
  ghost predicate Distinct(cursor: seq<Fingerprint>) {
    forall i, j :: 0 <= i < j < |cursor| ==> cursor[i] != cursor[j]
  }

  /** `cursor` lists exactly the relays whose `kind` is pending, each once:
      what `find({"<KIND>.sent": False})` yields. */
  ghost predicate IsCursor(cursor: seq<Fingerprint>, docs: Docs, kind: Notif) {
    Distinct(cursor) && forall fp :: fp in cursor <==> Pending(docs, fp, kind)
  }

  // ---------------------------------------------------------------------
  // The store operations on values

  function SubscribeStep(docs: Docs, fp: Fingerprint, email: string, notifs: seq<Notif>,
                         duration: int, validEmail: EmailValidator): Step<bool>
  {
    if !validEmail(email) then Step(Err(InvalidEmail), docs)
    else if fp in docs then Step(Err(RelaySubscribed), docs)
    else Step(Ok(true), docs[fp := Doc(fp, email, FreshKinds(notifs, duration))])
  }

  function UnsubscribeStep(docs: Docs, fp: Fingerprint): Step<bool> {
    if fp !in docs then Step(Err(RelayNotSubscribed), docs)
    else Step(Ok(true), docs - {fp})
  }

  /** The collection holds the fingerprint, e-mail and `_id` fields besides
      the kinds, so "more than four fields" means "at least two kinds". */
  function UnsubscribeSingleStep(docs: Docs, fp: Fingerprint, kind: Notif): Step<bool> {
    if fp !in docs then Step(Err(RelayNotSubscribed), docs)
    else if kind !in docs[fp].kinds then Step(Err(NotifNotSubscribed), docs)
    else if |docs[fp].kinds| > 1 then
      Step(Ok(true), docs[fp := docs[fp].(kinds := docs[fp].kinds - {kind})])
    else UnsubscribeStep(docs, fp)
  }

  function WithSent(doc: Doc, kind: Notif, status: bool): Doc
    requires kind in doc.kinds
  {
    doc.(kinds := doc.kinds[kind := doc.kinds[kind].(sent := status)])
  }

  function UpdateNotifStatusStep(docs: Docs, fp: Fingerprint, kind: Notif, status: bool): Step<bool> {
    if fp !in docs then Step(Err(RelayNotSubscribed), docs)
    else if kind !in docs[fp].kinds then Step(Err(NotifNotSubscribed), docs)
    else Step(Ok(true), docs[fp := WithSent(docs[fp], kind, status)])
  }

  /** The `duration` getter: reading the NODE_DOWN duration of a document
      without that kind raises KeyError. */
  function DurationOf(docs: Docs, fp: Fingerprint): Result<int> {
    if fp !in docs then Err(RelayNotSubscribed)
    else if NodeDown !in docs[fp].kinds || docs[fp].kinds[NodeDown].duration.None? then Err(MissingField)
    else Ok(docs[fp].kinds[NodeDown].duration.value)
  }

  function EmailOf(docs: Docs, fp: Fingerprint): Result<string> {
    if fp !in docs then Err(RelayNotSubscribed) else Ok(docs[fp].email)
  }

  // ---------------------------------------------------------------------
  // Properties of the operations

  /** The sub-documents of a fresh subscription: one per requested kind,
      none sent, and a duration only on NODE_DOWN. */
  lemma FreshKindsShape(notifs: seq<Notif>, duration: int)
    ensures FreshKinds(notifs, duration).Keys == set k | k in notifs
    ensures forall k :: k in FreshKinds(notifs, duration) ==>
              !FreshKinds(notifs, duration)[k].sent &&
              FreshKinds(notifs, duration)[k].duration == (if k == NodeDown then Some(duration) else None)
  {
  }

  /** A successful subscribe adds exactly one document, for `fp`, and
      leaves every other document as it was. */
  lemma SubscribeAddsOneDocument(docs: Docs, fp: Fingerprint, email: string, notifs: seq<Notif>,
                                 duration: int, validEmail: EmailValidator)
    requires validEmail(email) && fp !in docs
    ensures var s := SubscribeStep(docs, fp, email, notifs, duration, validEmail);
      && s.result == Ok(true)
      && s.docs.Keys == docs.Keys + {fp}
      && |s.docs| == |docs| + 1
      && (forall other :: other in docs ==> s.docs[other] == docs[other])
      && s.docs[fp].fingerprint == fp && s.docs[fp].email == email
      && s.docs[fp].kinds.Keys == (set k | k in notifs)
  {
  }

  /** Subscribing with at least one kind keeps every document well formed;
      with no kind it would store a document without kinds. */
  lemma SubscribeKeepsWellFormed(docs: Docs, fp: Fingerprint, email: string, notifs: seq<Notif>,
                                 duration: int, validEmail: EmailValidator)
    requires WellFormed(docs) && notifs != []
    ensures WellFormed(SubscribeStep(docs, fp, email, notifs, duration, validEmail).docs)
  {
    assert notifs[0] in FreshKinds(notifs, duration);
  }

  /** Without the caller's non-empty guard the invariant breaks. */
  lemma SubscribeWithoutKindsStoresEmptyDocument(docs: Docs, fp: Fingerprint, email: string,
                                                 duration: int, validEmail: EmailValidator)
    requires validEmail(email) && fp !in docs
    ensures var s := SubscribeStep(docs, fp, email, [], duration, validEmail);
      s.result.Ok? && fp in s.docs && !DocWellFormed(fp, s.docs[fp])
  {
  }

  /** Subscribing a relay that was just subscribed fails, whatever the
      second request asks for, and changes nothing. */
  lemma ResubscribeRejected(docs: Docs, fp: Fingerprint, email: string, notifs: seq<Notif>, duration: int,
                            email2: string, notifs2: seq<Notif>, duration2: int, validEmail: EmailValidator)
    requires SubscribeStep(docs, fp, email, notifs, duration, validEmail).result.Ok?
    ensures var first := SubscribeStep(docs, fp, email, notifs, duration, validEmail).docs;
      var second := SubscribeStep(first, fp, email2, notifs2, duration2, validEmail);
      && second.docs == first
      && second.result == Err(if validEmail(email2) then RelaySubscribed else InvalidEmail)
  {
  }

  /** After a successful subscribe the getters return the stored e-mail and
      the NODE_DOWN duration (KeyError when NODE_DOWN was not requested). */
  lemma GettersAfterSubscribe(docs: Docs, fp: Fingerprint, email: string, notifs: seq<Notif>,
                              duration: int, validEmail: EmailValidator)
    requires SubscribeStep(docs, fp, email, notifs, duration, validEmail).result.Ok?
    ensures var after := SubscribeStep(docs, fp, email, notifs, duration, validEmail).docs;
      && EmailOf(after, fp) == Ok(email)
      && DurationOf(after, fp) == (if NodeDown in notifs then Ok(duration) else Err(MissingField))
  {
  }

  /** Unsubscribing deletes that document and no other. */
  lemma UnsubscribeDeletesOnlyThat(docs: Docs, fp: Fingerprint)
    requires fp in docs
    ensures var s := UnsubscribeStep(docs, fp);
      && s.result == Ok(true)
      && s.docs.Keys == docs.Keys - {fp}
      && |s.docs| == |docs| - 1
      && forall other :: other in s.docs ==> s.docs[other] == docs[other]
  {
  }

  /** Removing one kind keeps every document well formed: a document with
      two or more kinds loses only that key, and a document with only that
      kind is deleted, so no document is left without kinds. */
  lemma UnsubscribeSingleKeepsWellFormed(docs: Docs, fp: Fingerprint, kind: Notif)
    requires WellFormed(docs)
    ensures WellFormed(UnsubscribeSingleStep(docs, fp, kind).docs)
  {
    if fp in docs && kind in docs[fp].kinds && |docs[fp].kinds| > 1 {
      var rest := docs[fp].kinds - {kind};
      assert rest.Keys == docs[fp].kinds.Keys - {kind};
      assert |rest| == |docs[fp].kinds| - 1;
    }
  }

  /** The effect of removing a subscribed kind: that key only, or the
      whole document when it was the last kind. */
  lemma UnsubscribeSingleEffect(docs: Docs, fp: Fingerprint, kind: Notif)
    requires fp in docs && kind in docs[fp].kinds
    ensures var s := UnsubscribeSingleStep(docs, fp, kind);
      && s.result == Ok(true)
      && s.docs.Keys == (if |docs[fp].kinds| > 1 then docs.Keys else docs.Keys - {fp})
      && (forall other :: other in docs && other != fp ==> s.docs[other] == docs[other])
      && (fp in s.docs ==>
            && s.docs[fp].email == docs[fp].email
            && s.docs[fp].kinds.Keys == docs[fp].kinds.Keys - {kind}
            && forall k :: k in s.docs[fp].kinds ==> s.docs[fp].kinds[k] == docs[fp].kinds[k])
  {
  }

  /** Subscribing to both kinds, then removing them one at a time: after
      the first removal only the other kind is left, after the second the
      relay is no longer subscribed. */
  lemma RemoveKindsOneByOne(docs: Docs, fp: Fingerprint, email: string, duration: int,
                            validEmail: EmailValidator)
    requires SubscribeStep(docs, fp, email, [NodeDown, OutdatedVer], duration, validEmail).result.Ok?
    ensures var s0 := SubscribeStep(docs, fp, email, [NodeDown, OutdatedVer], duration, validEmail).docs;
      var s1 := UnsubscribeSingleStep(s0, fp, NodeDown);
      var s2 := UnsubscribeSingleStep(s1.docs, fp, OutdatedVer);
      && s1.result == Ok(true) && fp in s1.docs && s1.docs[fp].kinds.Keys == {OutdatedVer}
      && s2.result == Ok(true) && fp !in s2.docs && s2.docs == docs
  {
    var s0 := SubscribeStep(docs, fp, email, [NodeDown, OutdatedVer], duration, validEmail).docs;
    var kinds := FreshKinds([NodeDown, OutdatedVer], duration);
    assert kinds.Keys == {NodeDown, OutdatedVer};
    assert |kinds| == 2;
    var s1 := UnsubscribeSingleStep(s0, fp, NodeDown);
    assert s1.docs[fp].kinds.Keys == {OutdatedVer};
    assert |s1.docs[fp].kinds| == 1;
    assert s1.docs - {fp} == docs;
  }

  /** Setting a sent flag changes that flag only: the fingerprint, e-mail,
      duration and every other kind stay as they were, and the documents
      stay well formed. */
  lemma UpdateNotifStatusFrame(docs: Docs, fp: Fingerprint, kind: Notif, status: bool)
    requires fp in docs && kind in docs[fp].kinds
    ensures var s := UpdateNotifStatusStep(docs, fp, kind, status);
      && s.result == Ok(true)
      && s.docs.Keys == docs.Keys
      && (forall other :: other in docs && other != fp ==> s.docs[other] == docs[other])
      && s.docs[fp].fingerprint == docs[fp].fingerprint
      && s.docs[fp].email == docs[fp].email
      && s.docs[fp].kinds.Keys == docs[fp].kinds.Keys
      && s.docs[fp].kinds[kind] == KindState(status, docs[fp].kinds[kind].duration)
      && (forall k :: k in docs[fp].kinds && k != kind ==> s.docs[fp].kinds[k] == docs[fp].kinds[k])
      && (WellFormed(docs) ==> WellFormed(s.docs))
  {
  }

  /** Setting a flag twice leaves the same collection as setting it once. */
  lemma UpdateNotifStatusIdempotent(docs: Docs, fp: Fingerprint, kind: Notif, status: bool)
    ensures var once := UpdateNotifStatusStep(docs, fp, kind, status);
      UpdateNotifStatusStep(once.docs, fp, kind, status) == once
  {
    if fp in docs && kind in docs[fp].kinds {
      var d := WithSent(docs[fp], kind, status);
      assert WithSent(d, kind, status) == d;
    }
  }

  // ---------------------------------------------------------------------
  // The collection and the relay handle

  /** The "subscribers" collection. */
  class Collection {
    var docs: Docs

    constructor ()
      ensures docs == map[]
    {
      docs := map[];
    }

    ghost predicate Valid()
      reads this
    {
      WellFormed(docs)
    }

    /** `find({"<KIND>.sent": False})`: the relays whose `kind` is pending,
        each once, in an order the database chooses. */
    method Find(kind: Notif) returns (cursor: seq<Fingerprint>)
      ensures IsCursor(cursor, docs, kind)
    {
      var remaining := set fp | fp in docs && Pending(docs, fp, kind);
      cursor := [];
      while remaining != {}
        invariant Distinct(cursor)
        invariant forall fp :: fp in cursor ==> fp !in remaining
        invariant forall fp :: fp in cursor || fp in remaining <==> Pending(docs, fp, kind)
        decreases remaining
      {
        var fp :| fp in remaining;
        cursor := cursor + [fp];
        remaining := remaining - {fp};
      }
    }
  }

  /** Builds the document a subscription stores (the loop that writes one
      `{sent: false}` entry per requested kind, plus NODE_DOWN's duration). */
  method BuildDocument(fp: Fingerprint, email: string, notifs: seq<Notif>, duration: int) returns (doc: Doc)
    ensures doc == Doc(fp, email, FreshKinds(notifs, duration))
  {
    var kinds: map<Notif, KindState> := map[];
    for i := 0 to |notifs|
      invariant kinds == FreshKinds(notifs[..i], duration)
    {
      var state := KindState(false, None);
      if notifs[i] == NodeDown {
        state := state.(duration := Some(duration));
      }
      kinds := kinds[notifs[i] := state];
      assert notifs[..i + 1] == notifs[..i] + [notifs[i]];
    }
    assert notifs[..|notifs|] == notifs;
    doc := Doc(fp, email, kinds);
  }

  /** A relay, identified by its fingerprint, with a handle on the
      collection. Resolving the fingerprint against the relay lookup is the
      caller's step before construction. */
  class Relay {
    const fingerprint: Fingerprint
    const collection: Collection

    constructor (fingerprint: Fingerprint, collection: Collection)
      ensures this.fingerprint == fingerprint && this.collection == collection
    {
      this.fingerprint := fingerprint;
      this.collection := collection;
    }

    /** The NODE_DOWN duration stored for this relay: the method side of
        DurationOf, which states the same lookup on the collection's map so
        that functions and lemmas can use it. */
    method Duration() returns (r: Result<int>)
      ensures r == DurationOf(collection.docs, fingerprint)
    {
      if fingerprint !in collection.docs {
        return Err(RelayNotSubscribed);
      }
      var doc := collection.docs[fingerprint];
      if NodeDown !in doc.kinds || doc.kinds[NodeDown].duration.None? {
        return Err(MissingField);
      }
      return Ok(doc.kinds[NodeDown].duration.value);
    }

    /** The e-mail stored for this relay: the method side of EmailOf. */
    method Email() returns (r: Result<string>)
      ensures r == EmailOf(collection.docs, fingerprint)
    {
      if fingerprint !in collection.docs {
        return Err(RelayNotSubscribed);
      }
      return Ok(collection.docs[fingerprint].email);
    }

    /** Validates the e-mail first, then rejects a relay that already has a
        document, then inserts the new document. */
    method Subscribe(email: string, notifs: seq<Notif>, duration: int := DefaultDuration,
                     validEmail: EmailValidator) returns (r: Result<bool>)
      modifies collection
      ensures Step(r, collection.docs) ==
              SubscribeStep(old(collection.docs), fingerprint, email, notifs, duration, validEmail)
      ensures r.Ok? ==> r.value
      ensures old(collection.Valid()) && notifs != [] ==> collection.Valid()
    {
      if !validEmail(email) {
        return Err(InvalidEmail);
      }
      if fingerprint in collection.docs {
        return Err(RelaySubscribed);
      }
      var doc := BuildDocument(fingerprint, email, notifs, duration);
      collection.docs := collection.docs[fingerprint := doc];
      if old(collection.Valid()) && notifs != [] {
        SubscribeKeepsWellFormed(old(collection.docs), fingerprint, email, notifs, duration, validEmail);
      }
      return Ok(true);
    }

    method Unsubscribe() returns (r: Result<bool>)
      modifies collection
      ensures Step(r, collection.docs) == UnsubscribeStep(old(collection.docs), fingerprint)
      ensures old(collection.Valid()) ==> collection.Valid()
    {
      if fingerprint !in collection.docs {
        return Err(RelayNotSubscribed);
      }
      collection.docs := collection.docs - {fingerprint};
      return Ok(true);
    }

    /** Checks that the relay is subscribed, then that the kind is, then
        removes the kind or, when it is the last one, the whole document. */
    method UnsubscribeSingle(kind: Notif) returns (r: Result<bool>)
      modifies collection
      ensures Step(r, collection.docs) == UnsubscribeSingleStep(old(collection.docs), fingerprint, kind)
      ensures old(collection.Valid()) ==> collection.Valid()
    {
      if collection.Valid() {
        UnsubscribeSingleKeepsWellFormed(collection.docs, fingerprint, kind);
      }
      if fingerprint !in collection.docs {
        return Err(RelayNotSubscribed);
      }
      var doc := collection.docs[fingerprint];
      if kind !in doc.kinds {
        return Err(NotifNotSubscribed);
      }
      if |doc.kinds| > 1 {
        collection.docs := collection.docs[fingerprint := doc.(kinds := doc.kinds - {kind})];
        r := Ok(true);
      } else {
        r := Unsubscribe();
      }
    }

    /** Sets `<kind>.sent` to `status`. */
    method UpdateNotifStatus(kind: Notif, status: bool := true) returns (r: Result<bool>)
      modifies collection
      ensures Step(r, collection.docs) == UpdateNotifStatusStep(old(collection.docs), fingerprint, kind, status)
      ensures old(collection.Valid()) ==> collection.Valid()
    {
      if fingerprint !in collection.docs {
        return Err(RelayNotSubscribed);
      }
      var doc := collection.docs[fingerprint];
      if kind !in doc.kinds {
        return Err(NotifNotSubscribed);
      }
      UpdateNotifStatusFrame(collection.docs, fingerprint, kind, status);
      collection.docs := collection.docs[fingerprint := WithSent(doc, kind, status)];
      return Ok(true);
    }
  }
}
