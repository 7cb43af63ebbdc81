/** The "/unsubscribe" endpoint (torweather/routes/unsubscribe.py): resolve
    the relay, require the e-mail stored for it, then remove either the
    whole subscription or the one kind the form names. */
module UnsubscribeRoute {
  import opened Schemas
  import opened Store

  /** The posted form; a missing field reads as None. */
  datatype Form = Form(fingerprint: string, email: Option<string>, notifType: Option<string>)

  datatype Request = Get | Post(form: Form)

  /** The rendered page: the bare form, the form with an error message, the
      unsubscription outcome (with the label of the single kind removed,
      if only one was), or a server error for an exception the route does
      not catch. */
  datatype Page =
    | Blank
    | Failure(message: string)
    | Outcome(unsubscribed: bool, nickname: string, fingerprint: string, single: Option<string>)
    | ServerError(cause: Error)

  /** The label the unsubscribe page shows for the `<option>` with a given
      value, or None when the page has no such option. */
  type OptionLabels = string -> Option<string>

  const WrongEmail: string := "Email not subscribed by relay."
  const BadEmail: string := "Not a valid email address."
  const BadFingerprint: string := "Not a valid relay fingerprint."
  const NotChosen: string := "Chosen notification not subscribed."

  // ---------------------------------------------------------------------
  // From form value to kind name

  /** `replace("-", "_")`. */
  function DashesToUnderscores(s: string): string {
    seq(|s|, i requires 0 <= i < |s| => if s[i] == '-' then '_' else s[i])
  }

  predicate IsLower(c: char) {
    'a' <= c <= 'z'
  }

  function UpperChar(c: char): char {
    if IsLower(c) then (c as int - 'a' as int + 'A' as int) as char else c
  }

  /** `upper()` on ASCII letters. */
  function Upper(s: string): string {
    seq(|s|, i requires 0 <= i < |s| => UpperChar(s[i]))
  }

  /** The enum member name a form value stands for: the value with each
      dash made an underscore and each lower-case letter upper-cased, every
      other character kept. */
  function KindName(value: string): (name: string)
    ensures |name| == |value|
    ensures forall i :: 0 <= i < |name| ==> name[i] != '-' && !IsLower(name[i])
    ensures forall i :: 0 <= i < |value| && value[i] != '-' && !IsLower(value[i]) ==> name[i] == value[i]
  {
    Upper(DashesToUnderscores(value))
  }

  /** The value of each kind's option in the form. */
  function FormValue(k: Notif): string {
    match k
    case NodeDown => "node-down"
    case OutdatedVer => "outdated-ver"
  }

  /** Each kind's form value maps to that kind's member name, and so
      resolves to that kind. */
  lemma FormValueResolves(k: Notif)
    ensures KindName(FormValue(k)) == k.Name()
    ensures NotifNamed(KindName(FormValue(k))) == Some(k)
  {
    match k
    case NodeDown => assert KindName("node-down") == "NODE_DOWN";
    case OutdatedVer => assert KindName("outdated-ver") == "OUTDATED_VER";
  }

  /** A kind name has no dash and no lower-case letter, and mapping it
      again changes nothing. */
  lemma KindNameNormal(value: string)
    ensures forall i :: 0 <= i < |KindName(value)| ==> KindName(value)[i] != '-' && !IsLower(KindName(value)[i])
    ensures KindName(KindName(value)) == KindName(value)
  {
    var n := KindName(value);
    assert forall i :: 0 <= i < |n| ==> n[i] != '-' && !IsLower(n[i]);
    assert KindName(n) == n by {
      assert forall i :: 0 <= i < |n| ==> KindName(n)[i] == n[i];
    }
  }

  /** The mapping ignores case and treats "-" and "_" alike: upper-casing
      a value, or replacing its dashes first, maps it to the same name, and
      so does spelling a kind with its member name or in mixed case. */
  lemma KindNameIgnoresCaseAndDashes(value: string)
    ensures KindName(Upper(value)) == KindName(value)
    ensures KindName(DashesToUnderscores(value)) == KindName(value)
  {
  }

  lemma KindNameSpellings()
    ensures NotifNamed(KindName("NODE_DOWN")) == Some(NodeDown)
    ensures NotifNamed(KindName("node_down")) == Some(NodeDown)
    ensures NotifNamed(KindName("Outdated-Ver")) == Some(OutdatedVer)
  {
    assert KindName("NODE_DOWN") == "NODE_DOWN";
    assert KindName("node_down") == "NODE_DOWN";
    assert KindName("Outdated-Ver") == "OUTDATED_VER";
  }

  /** "all" names no member. */
  lemma AllIsNoKind()
    ensures NotifNamed(KindName("all")) == None
  {
    assert KindName("all") == "ALL";
  }

  // ---------------------------------------------------------------------
  // The route

  /** The page an exception the route catches renders; any other
      exception becomes a server error. */
  function Caught(e: Error, nickname: string, fp: Fingerprint): Page {
    match e
    case InvalidEmail => Failure(BadEmail)
    case InvalidFingerprint => Failure(BadFingerprint)
    case RelayNotSubscribed => Outcome(false, nickname, fp, None)
    case NotifNotSubscribed => Failure(NotChosen)
    case _ => ServerError(e)
  }

  /** The page and the collection after a request, as a value. The relay
      is resolved first; reading its stored e-mail raises for a relay
      without a document; the e-mail must match before anything is
      removed; a value other than "all" is mapped to a member name, and a
      name no member has (or a missing value) is an uncaught error; the
      single kind's label is looked up after the store is updated. */
  function Respond(request: Request, docs: Docs, lookup: Onionoo, labels: OptionLabels): (r: (Page, Docs))
    ensures request.Get? ==> r == (Blank, docs)
    ensures r.1.Keys <= docs.Keys
    ensures request.Post? ==> forall fp :: fp in docs && fp != request.form.fingerprint ==> fp in r.1 && r.1[fp] == docs[fp]
    ensures r.1 != docs ==>
              && request.Post? && request.form.fingerprint in docs
              && request.form.email == Some(docs[request.form.fingerprint].email)
  {
    match request
    case Get => (Blank, docs)
    case Post(form) =>
      var fp := form.fingerprint;
      match lookup(fp)
      case None => (Failure(BadFingerprint), docs)
      case Some(relay) =>
        match EmailOf(docs, fp)
        case Err(e) => (Caught(e, relay.nickname, fp), docs)
        case Ok(stored) =>
          if form.email != Some(stored) then (Failure(WrongEmail), docs)
          else if form.notifType == Some("all") then
            var s := UnsubscribeStep(docs, fp);
            match s.result
            case Ok(_) => (Outcome(true, relay.nickname, fp, None), s.docs)
            case Err(e) => (Caught(e, relay.nickname, fp), s.docs)
          else if form.notifType.None? then (ServerError(UnknownNotif), docs)
          else
            var value := form.notifType.value;
            match NotifNamed(KindName(value))
            case None => (ServerError(UnknownNotif), docs)
            case Some(kind) =>
              var s := UnsubscribeSingleStep(docs, fp, kind);
              match s.result
              case Err(e) => (Caught(e, relay.nickname, fp), s.docs)
              case Ok(_) =>
                match labels(value)
                case None => (ServerError(NoSuchOption), s.docs)
                case Some(text) => (Outcome(true, relay.nickname, fp, Some(text)), s.docs)
  }

  /** Only the holder of the stored e-mail changes the store: a request
      whose e-mail is not the one stored for the relay, or for a relay that
      does not resolve or has no document, leaves the store as it was. */
  lemma EmailGuard(form: Form, docs: Docs, lookup: Onionoo, labels: OptionLabels)
    requires lookup(form.fingerprint).None? || form.fingerprint !in docs ||
             form.email != Some(docs[form.fingerprint].email)
    ensures Respond(Post(form), docs, lookup, labels).1 == docs
    ensures lookup(form.fingerprint).Some? && form.fingerprint in docs ==>
              Respond(Post(form), docs, lookup, labels).0 == Failure(WrongEmail)
  {
  }

  /** The outcomes once the relay resolves and the e-mail matches: "all"
      deletes the document and only it; a kind the relay has is removed
      (with the whole document when it was the last); a kind it lacks, an
      unknown name or a missing value changes nothing. */
  lemma RespondAfterGuard(form: Form, docs: Docs, lookup: Onionoo, labels: OptionLabels)
    requires lookup(form.fingerprint).Some? && form.fingerprint in docs
    requires form.email == Some(docs[form.fingerprint].email)
    ensures var fp := form.fingerprint;
      var nickname := lookup(fp).value.nickname;
      var (page, after) := Respond(Post(form), docs, lookup, labels);
      && (form.notifType == Some("all") ==>
            && page == Outcome(true, nickname, fp, None)
            && after == docs - {fp})
      && (form.notifType.Some? && form.notifType != Some("all") ==>
            var value := form.notifType.value;
            match NotifNamed(KindName(value))
            case None => page == ServerError(UnknownNotif) && after == docs
            case Some(kind) =>
              if kind !in docs[fp].kinds then page == Failure(NotChosen) && after == docs
              else
                && after == UnsubscribeSingleStep(docs, fp, kind).docs
                && page == (if labels(value).Some? then Outcome(true, nickname, fp, labels(value))
                            else ServerError(NoSuchOption)))
      && (form.notifType.None? ==> page == ServerError(UnknownNotif) && after == docs)
  {
  }

  /** A relay without a document gets the "not subscribed" outcome. */
  lemma NotSubscribedOutcome(form: Form, docs: Docs, lookup: Onionoo, labels: OptionLabels)
    requires lookup(form.fingerprint).Some? && form.fingerprint !in docs
    ensures Respond(Post(form), docs, lookup, labels) ==
            (Outcome(false, lookup(form.fingerprint).value.nickname, form.fingerprint, None), docs)
  {
  }

  /** Unsubscribing keeps every document with at least one kind. */
  lemma RespondKeepsWellFormed(request: Request, docs: Docs, lookup: Onionoo, labels: OptionLabels)
    requires WellFormed(docs)
    ensures WellFormed(Respond(request, docs, lookup, labels).1)
  {
    var after := Respond(request, docs, lookup, labels).1;
    if request.Post? {
      var form := request.form;
      var fp := form.fingerprint;
      if lookup(fp).Some? && fp in docs && form.email == Some(docs[fp].email) && form.notifType.Some? {
        var value := form.notifType.value;
        if value == "all" {
          assert after == docs - {fp};
        } else if NotifNamed(KindName(value)).Some? {
          var kind := NotifNamed(KindName(value)).value;
          UnsubscribeSingleKeepsWellFormed(docs, fp, kind);
          assert after == UnsubscribeSingleStep(docs, fp, kind).docs;
        }
      }
    }
  }

  /** The route's `main`: resolve the relay, compare the e-mail, and
      unsubscribe it from everything or from one kind. */
  method Handle(request: Request, collection: Collection, lookup: Onionoo, labels: OptionLabels)
    returns (page: Page)
    modifies collection
    ensures (page, collection.docs) == Respond(request, old(collection.docs), lookup, labels)
    ensures old(collection.Valid()) ==> collection.Valid()
  {
    if request.Get? {
      return Blank;
    }
    var form := request.form;
    var fp := form.fingerprint;
    var data := lookup(fp);
    if data.None? {
      return Failure(BadFingerprint);
    }
    var nickname := data.value.nickname;
    var relay := new Relay(fp, collection);
    var stored := relay.Email();
    if stored.Err? {
      return Caught(stored.error, nickname, fp);
    }
    if form.email != Some(stored.value) {
      return Failure(WrongEmail);
    }
    if form.notifType == Some("all") {
      var r := relay.Unsubscribe();
      if r.Err? {
        return Caught(r.error, nickname, fp);
      }
      return Outcome(true, nickname, fp, None);
    }
    if form.notifType.None? {
      return ServerError(UnknownNotif);
    }
    var value := form.notifType.value;
    var kind := NotifNamed(KindName(value));
    if kind.None? {
      return ServerError(UnknownNotif);
    }
    var r := relay.UnsubscribeSingle(kind.value);
    if r.Err? {
      return Caught(r.error, nickname, fp);
    }
    var text := labels(value);
    if text.None? {
      return ServerError(NoSuchOption);
    }
    return Outcome(true, nickname, fp, text);
  }
}
