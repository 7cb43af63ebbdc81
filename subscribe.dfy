/** The "/subscribe" endpoint (torweather/routes/subscribe.py): read the
    form into a list of kinds and a NODE_DOWN duration in hours, refuse an
    empty selection, resolve the relay and subscribe it. */
module SubscribeRoute {
  import opened Schemas
  import opened Store

  /** The duration text field: left empty, the text of an integer, or text
      `int()` rejects (which includes a form without the field). */
  datatype DurationField = Empty | Whole(n: int) | NotANumber

  /** The posted form. A checkbox is present with value "on" when ticked;
      a missing field reads as None. */
  datatype Form = Form(
    email: string,
    fingerprint: string,
    nodeDown: Option<string>,
    outdatedVer: Option<string>,
    duration: DurationField,
    durationType: Option<string>)

  datatype Request = Get | Post(form: Form)

  /** The rendered page: the bare form, the form with an error message, the
      subscription outcome, or a server error for an exception the route
      does not catch. */
  datatype Page =
    | Blank
    | Failure(message: string)
    | Outcome(subscribed: bool, nickname: string, fingerprint: string)
    | ServerError(cause: Error)

  const ChooseOne: string := "Choose at least one notification to subscribe."
  const BadEmail: string := "Not a valid email address."
  const BadFingerprint: string := "Not a valid relay fingerprint."

  /** Hours per unit of the duration-type field. */
  function UnitHours(unit: Option<string>): (h: int)
    ensures h >= 1
  {
    if unit == Some("days") then 24
    else if unit == Some("weeks") then 7 * 24
    else if unit == Some("months") then 30 * 24
    else 1
  }

  predicate Ticked(box: Option<string>) {
    box == Some("on")
  }

  /** The kinds the form selects: NODE_DOWN exactly when its box is ticked
      and OUTDATED_VER exactly when its box is, in that order, each at most
      once; none exactly when neither box is ticked. */
  function SelectedKinds(form: Form): (kinds: seq<Notif>)
    ensures NodeDown in kinds <==> Ticked(form.nodeDown)
    ensures OutdatedVer in kinds <==> Ticked(form.outdatedVer)
    ensures forall i, j :: 0 <= i < j < |kinds| ==> kinds[i] != kinds[j]
    ensures |kinds| == 2 ==> kinds == [NodeDown, OutdatedVer]
    ensures kinds == [] <==> !Ticked(form.nodeDown) && !Ticked(form.outdatedVer)
  {
    (if Ticked(form.nodeDown) then [NodeDown] else []) +
    (if Ticked(form.outdatedVer) then [OutdatedVer] else [])
  }

  /** The duration in hours the form asks for: 48 when the field is empty,
      scaled by the unit only when the node-down box is ticked. Only text
      `int()` rejects fails, and converting a non-negative number of units
      never gives fewer hours than the number. */
  function SelectedHours(form: Form): (r: Result<int>)
    ensures r.Err? <==> form.duration == NotANumber
    ensures r.Err? ==> r.error == NotAnInteger
    ensures form.duration.Whole? && form.duration.n >= 0 && r.Ok? ==> r.value >= form.duration.n
    ensures form.duration == Empty ==> r.Ok? && r.value >= DefaultDuration
  {
    match form.duration
    case NotANumber => Err(NotAnInteger)
    case Empty => Ok(if Ticked(form.nodeDown) then DefaultDuration * UnitHours(form.durationType) else DefaultDuration)
    case Whole(n) => Ok(if Ticked(form.nodeDown) then n * UnitHours(form.durationType) else n)
  }

  /** Reads the form as the route does: parse the duration, then append the
      ticked kinds and scale the duration in place. */
  method ReadSelection(form: Form) returns (notifs: seq<Notif>, duration: Result<int>)
    ensures duration.Ok? ==> notifs == SelectedKinds(form)
    ensures duration == SelectedHours(form)
  {
    match form.duration {
      case NotANumber => return [], Err(NotAnInteger);
      case Empty => duration := Ok(48);
      case Whole(n) => duration := Ok(n);
    }
    var hours := duration.value;
    notifs := [];
    if form.nodeDown == Some("on") {
      notifs := notifs + [NodeDown];
      if form.durationType == Some("days") {
        hours := hours * 24;
      } else if form.durationType == Some("weeks") {
        hours := hours * (7 * 24);
      } else if form.durationType == Some("months") {
        hours := hours * (30 * 24);
      }
    }
    if form.outdatedVer == Some("on") {
      notifs := notifs + [OutdatedVer];
    }
    duration := Ok(hours);
  }

  /** The unit conversion: days, weeks and months become 24, 168 and 720
      hours each; any other unit, or none, leaves the number as hours; an
      empty field means 48. Without the node-down box the number is taken
      as it is. */
  lemma SelectedHoursConversion(form: Form, n: int)
    requires form.duration == Whole(n)
    ensures Ticked(form.nodeDown) && form.durationType == Some("days") ==> SelectedHours(form) == Ok(24 * n)
    ensures Ticked(form.nodeDown) && form.durationType == Some("weeks") ==> SelectedHours(form) == Ok(168 * n)
    ensures Ticked(form.nodeDown) && form.durationType == Some("months") ==> SelectedHours(form) == Ok(720 * n)
    ensures form.durationType !in {Some("days"), Some("weeks"), Some("months")} ==> SelectedHours(form) == Ok(n)
    ensures !Ticked(form.nodeDown) ==> SelectedHours(form) == Ok(n)
  {
  }

  /** An empty duration field reads exactly as the number 48, then
      converted by the unit like any number: 48 days with the unit "days". */
  lemma BlankDurationDefaults(form: Form)
    requires form.duration == Empty
    ensures SelectedHours(form) == SelectedHours(form.(duration := Whole(DefaultDuration)))
    ensures !Ticked(form.nodeDown) || form.durationType == Some("hours") ==> SelectedHours(form) == Ok(48)
    ensures Ticked(form.nodeDown) && form.durationType == Some("days") ==> SelectedHours(form) == Ok(48 * 24)
  {
  }

  /** The page and the collection after a request, as a value. The duration
      is parsed before anything else, so a malformed number fails even
      without a selection; an empty selection never reaches the store; the
      relay is resolved before the e-mail is validated; a duplicate
      subscription raises an error the route does not catch. */
  function Respond(request: Request, docs: Docs, lookup: Onionoo, validEmail: EmailValidator): (r: (Page, Docs))
    ensures request.Get? ==> r == (Blank, docs)
    ensures docs.Keys <= r.1.Keys && forall fp :: fp in docs ==> r.1[fp] == docs[fp]
    ensures request.Post? ==> r.1.Keys <= docs.Keys + {request.form.fingerprint}
  {
    match request
    case Get => (Blank, docs)
    case Post(form) =>
      match SelectedHours(form)
      case Err(e) => (ServerError(e), docs)
      case Ok(duration) =>
        var notifs := SelectedKinds(form);
        if notifs == [] then (Failure(ChooseOne), docs)
        else
          match lookup(form.fingerprint)
          case None => (Failure(BadFingerprint), docs)
          case Some(relay) =>
            var s := SubscribeStep(docs, form.fingerprint, form.email, notifs, duration, validEmail);
            match s.result
            case Ok(subscribed) => (Outcome(subscribed, relay.nickname, form.fingerprint), s.docs)
            case Err(InvalidEmail) => (Failure(BadEmail), s.docs)
            case Err(e) => (ServerError(e), s.docs)
  }

  /** What each page means for the store: a subscription page is shown
      exactly when the form selects a kind, the relay resolves, the e-mail
      is valid and the relay had no document, and then one document holding
      the selection was added; every other page leaves the store as it
      was. A "not subscribed" page is never shown. */
  lemma RespondMeaning(form: Form, docs: Docs, lookup: Onionoo, validEmail: EmailValidator)
    ensures var (page, after) := Respond(Post(form), docs, lookup, validEmail);
      && (page.Outcome? <==>
            && SelectedHours(form).Ok?
            && SelectedKinds(form) != []
            && lookup(form.fingerprint).Some?
            && validEmail(form.email)
            && form.fingerprint !in docs)
      && (page.Outcome? ==>
            && page.subscribed
            && page.nickname == lookup(form.fingerprint).value.nickname
            && after.Keys == docs.Keys + {form.fingerprint}
            && (forall fp :: fp in docs ==> after[fp] == docs[fp])
            && after[form.fingerprint].email == form.email
            && after[form.fingerprint].kinds.Keys == set k | k in SelectedKinds(form)
            && (Ticked(form.nodeDown) ==>
                  after[form.fingerprint].kinds[NodeDown] == KindState(false, Some(SelectedHours(form).value))))
      && (!page.Outcome? ==> after == docs)
  {
    var (page, after) := Respond(Post(form), docs, lookup, validEmail);
    if page.Outcome? {
      SubscribeAddsOneDocument(docs, form.fingerprint, form.email, SelectedKinds(form),
                               SelectedHours(form).value, validEmail);
    }
  }

  /** The error pages, in the order the route reaches them. */
  lemma RespondErrors(form: Form, docs: Docs, lookup: Onionoo, validEmail: EmailValidator)
    ensures var (page, _) := Respond(Post(form), docs, lookup, validEmail);
      && (form.duration == NotANumber ==> page == ServerError(NotAnInteger))
      && (form.duration != NotANumber && SelectedKinds(form) == [] ==> page == Failure(ChooseOne))
      && (form.duration != NotANumber && SelectedKinds(form) != [] && lookup(form.fingerprint).None? ==>
            page == Failure(BadFingerprint))
      && (form.duration != NotANumber && SelectedKinds(form) != [] && lookup(form.fingerprint).Some? ==>
            && (!validEmail(form.email) ==> page == Failure(BadEmail))
            && (validEmail(form.email) && form.fingerprint in docs ==> page == ServerError(RelaySubscribed)))
  {
  }

  /** Because the route refuses an empty selection, every document it
      stores has a kind. */
  lemma RespondKeepsWellFormed(request: Request, docs: Docs, lookup: Onionoo, validEmail: EmailValidator)
    requires WellFormed(docs)
    ensures WellFormed(Respond(request, docs, lookup, validEmail).1)
  {
    if request.Post? && SelectedHours(request.form).Ok? && SelectedKinds(request.form) != [] {
      SubscribeKeepsWellFormed(docs, request.form.fingerprint, request.form.email,
                               SelectedKinds(request.form), SelectedHours(request.form).value, validEmail);
    }
  }

  /** The route's `main`: read the form, check the selection, resolve the
      relay, subscribe it, and render the outcome. */
  method Handle(request: Request, collection: Collection, lookup: Onionoo, validEmail: EmailValidator)
    returns (page: Page)
    modifies collection
    ensures (page, collection.docs) == Respond(request, old(collection.docs), lookup, validEmail)
    ensures old(collection.Valid()) ==> collection.Valid()
  {
    if request.Get? {
      return Blank;
    }
    var form := request.form;
    var notifs, duration := ReadSelection(form);
    if duration.Err? {
      return ServerError(duration.error);
    }
    if notifs == [] {
      return Failure(ChooseOne);
    }
    var data := lookup(form.fingerprint);
    if data.None? {
      return Failure(BadFingerprint);
    }
    var relay := new Relay(form.fingerprint, collection);
    var r := relay.Subscribe(form.email, notifs, duration.value, validEmail);
    match r {
      case Ok(subscribed) => page := Outcome(subscribed, data.value.nickname, form.fingerprint);
      case Err(InvalidEmail) => page := Failure(BadEmail);
      case Err(e) => page := ServerError(e);
    }
  }
}
