/**
 * The newsletter subscription endpoint (`POST /api/subscribe`): validate the submitted
 * email, refuse one that is already subscribed, otherwise store a new active subscriber.
 *
 * Whether the form body can be read, whether each store call gets through, the id the
 * store assigns and the clock are parameters.
 */
module Subscribe {
  import opened Wrappers
  import opened Documents

  // ---------------------------------------------------------------------------
  // The email shape /^[^\s@]+@[^\s@]+\.[^\s@]+$/
  // ---------------------------------------------------------------------------

  /** The characters JavaScript's `\s` matches. */
  predicate IsJsSpace(c: char)
  {
    || c == '\t' || c == '\n' || c == '\U{000B}' || c == '\U{000C}' || c == '\r' || c == ' '
    || c == '\U{00A0}' || c == '\U{1680}' || ('\U{2000}' <= c <= '\U{200A}')
    || c == '\U{2028}' || c == '\U{2029}' || c == '\U{202F}' || c == '\U{205F}'
    || c == '\U{3000}' || c == '\U{FEFF}'
  }

  /** A character of the class `[^\s@]`. */
  predicate Plain(c: char)
  {
    !IsJsSpace(c) && c != '@'
  }

  predicate AllPlain(s: string)
  {
    forall k :: 0 <= k < |s| ==> Plain(s[k])
  }

  /**
   * The regular expression read literally: one or more plain characters, `@`, one or more
   * plain characters, `.`, one or more plain characters, and nothing else.
   */
  ghost predicate MatchesEmailPattern(s: string)
  {
    exists i, j :: 0 < i && i + 1 < j && j + 1 < |s| && s[i] == '@' && s[j] == '.' &&
      AllPlain(s[..i]) && AllPlain(s[i + 1..j]) && AllPlain(s[j + 1..])
  }

  /** The index of the first `@`, or `|s|` when there is none. */
  function FirstAt(s: string): (i: nat)
    ensures i <= |s|
    ensures forall k :: 0 <= k < i ==> s[k] != '@'
    ensures i < |s| ==> s[i] == '@'
  {
    if s == [] then 0
    else if s[0] == '@' then 0
    else 1 + FirstAt(s[1..])
  }

  /**
   * The test the handler applies: a non-empty local part before the first `@`, no further
   * `@` and no white space anywhere, and a `.` in the domain with something on each side.
   */
  predicate IsEmail(s: string)
  {
    var i := FirstAt(s);
    && 0 < i < |s|
    && AllPlain(s[..i])
    && AllPlain(s[i + 1..])
    && exists j :: i + 1 < j < |s| - 1 && s[j] == '.'
  }

  /** The handler's test accepts exactly the strings the regular expression matches. */
  lemma IsEmailMatchesPattern(s: string)
    ensures IsEmail(s) <==> MatchesEmailPattern(s)
  {
  }

  // ---------------------------------------------------------------------------
  // The handler
  // ---------------------------------------------------------------------------

  const MISSING_EMAIL := "Email é obrigatório"
  const INVALID_EMAIL := "Email inválido"
  const ALREADY_SUBSCRIBED := "Este email já está cadastrado"
  const PROCESSING_ERROR := "Erro ao processar inscrição"

  /** The submitted form: unreadable (`formData()` throws), or its optional `email` field. */
  datatype Form = Unreadable | Form(email: Option<string>)

  datatype Body = Failure(error: string) | Success(id: string)

  datatype Response = Response(status: int, body: Body)

  datatype Exchange = Exchange(response: Response, docs: map<string, Doc>)

  /** The response and the new store of one request. */
  function SubscribeEffect(docs: map<string, Doc>, form: Form, newId: string, now: Timestamp,
                           fetchUp: bool, createUp: bool): (x: Exchange)
    ensures x.response.status in {200, 400, 409, 500}
    ensures x.response.status == 200 <==> x.docs != docs
    ensures x.response.status == 200 ==>
              && form.Form? && form.email.Some? && IsEmail(form.email.value)
              && newId !in docs && SubscriberIds(docs, form.email.value) == {}
              && x.docs == docs[newId := SubscriberDoc(Subscriber(form.email.value, now, true))]
              && x.response.body == Success(newId)
  {
    match form
    case Unreadable => Exchange(Response(500, Failure(PROCESSING_ERROR)), docs)
    case Form(email) =>
      if !Truthy(email) then Exchange(Response(400, Failure(MISSING_EMAIL)), docs)
      else if !IsEmail(email.value) then Exchange(Response(400, Failure(INVALID_EMAIL)), docs)
      else if !fetchUp then Exchange(Response(500, Failure(PROCESSING_ERROR)), docs)
      else if SubscriberIds(docs, email.value) != {} then Exchange(Response(409, Failure(ALREADY_SUBSCRIBED)), docs)
      else if !createUp || newId in docs then Exchange(Response(500, Failure(PROCESSING_ERROR)), docs)
      else
        var created := docs[newId := SubscriberDoc(Subscriber(email.value, now, true))];
        assert newId in created;
        Exchange(Response(200, Success(newId)), created)
  }

  /** The `POST` handler. */
  method HandleSubscribe(store: Store, form: Form, newId: string, now: Timestamp,
                         fetchUp: bool, createUp: bool) returns (response: Response)
    modifies store
    ensures Exchange(response, store.docs) ==
              SubscribeEffect(old(store.docs), form, newId, now, fetchUp, createUp)
  {
    if form.Unreadable? {
      return Response(500, Failure(PROCESSING_ERROR));
    }
    var email := form.email;
    if !Truthy(email) {
      return Response(400, Failure(MISSING_EMAIL));
    }
    if !IsEmail(email.value) {
      return Response(400, Failure(INVALID_EMAIL));
    }
    var existing := store.FindSubscriber(email.value, fetchUp);
    if existing.Unreachable? {
      return Response(500, Failure(PROCESSING_ERROR));
    }
    if existing.Found? {
      return Response(409, Failure(ALREADY_SUBSCRIBED));
    }
    var ok := store.Create(newId, SubscriberDoc(Subscriber(email.value, now, true)), createUp);
    if !ok {
      return Response(500, Failure(PROCESSING_ERROR));
    }
    response := Response(200, Success(newId));
  }

  // ---------------------------------------------------------------------------
  // Properties of a request
  // ---------------------------------------------------------------------------

  /** A missing or empty email is refused with 400 and the store is not touched. */
  lemma MissingEmailRejected(docs: map<string, Doc>, email: Option<string>, newId: string,
                             now: Timestamp, fetchUp: bool, createUp: bool)
    requires !Truthy(email)
    ensures SubscribeEffect(docs, Form(email), newId, now, fetchUp, createUp) ==
              Exchange(Response(400, Failure(MISSING_EMAIL)), docs)
  {
  }

  /** An email the pattern does not match is refused with 400 and the store is not touched. */
  lemma MalformedEmailRejected(docs: map<string, Doc>, email: string, newId: string,
                               now: Timestamp, fetchUp: bool, createUp: bool)
    requires email != "" && !MatchesEmailPattern(email)
    ensures SubscribeEffect(docs, Form(Some(email)), newId, now, fetchUp, createUp) ==
              Exchange(Response(400, Failure(INVALID_EMAIL)), docs)
  {
    IsEmailMatchesPattern(email);
  }

  /** An email that already has a subscriber gets 409 and the store is not touched. */
  lemma DuplicateRejected(docs: map<string, Doc>, email: string, newId: string,
                          now: Timestamp, createUp: bool)
    requires IsEmail(email) && SubscriberIds(docs, email) != {}
    ensures SubscribeEffect(docs, Form(Some(email)), newId, now, true, createUp) ==
              Exchange(Response(409, Failure(ALREADY_SUBSCRIBED)), docs)
  {
  }

  /** An unreadable form or a store call that fails gives 500 and the store is not touched. */
  lemma StoreErrorsGive500(docs: map<string, Doc>, form: Form, newId: string, now: Timestamp,
                           fetchUp: bool, createUp: bool)
    requires form.Unreadable? || (form.email.Some? && IsEmail(form.email.value) &&
             (!fetchUp || (SubscriberIds(docs, form.email.value) == {} && (!createUp || newId in docs))))
    ensures SubscribeEffect(docs, form, newId, now, fetchUp, createUp) ==
              Exchange(Response(500, Failure(PROCESSING_ERROR)), docs)
  {
  }

  /**
   * A well-formed email with no subscriber yet gets 200 and exactly one new document: an
   * active subscriber with that email, which is then the only one with it.
   */
  lemma NewEmailSubscribed(docs: map<string, Doc>, email: string, newId: string, now: Timestamp)
    requires MatchesEmailPattern(email) && SubscriberIds(docs, email) == {} && newId !in docs
    ensures var x := SubscribeEffect(docs, Form(Some(email)), newId, now, true, true);
      && x.response == Response(200, Success(newId))
      && x.docs.Keys == docs.Keys + {newId}
      && x.docs[newId] == SubscriberDoc(Subscriber(email, now, true))
      && SubscriberIds(x.docs, email) == {newId}
  {
    IsEmailMatchesPattern(email);
    var x := SubscribeEffect(docs, Form(Some(email)), newId, now, true, true);
    assert email != "";
  }

  /**
   * Subscribing the same new, well-formed email twice gives 200 and then 409, and leaves
   * exactly one subscriber with that email.
   */
  lemma SubscribeTwice(docs: map<string, Doc>, email: string, id1: string, id2: string,
                       now1: Timestamp, now2: Timestamp, createUp2: bool)
    requires MatchesEmailPattern(email) && SubscriberIds(docs, email) == {} && id1 !in docs
    ensures var first := SubscribeEffect(docs, Form(Some(email)), id1, now1, true, true);
      var second := SubscribeEffect(first.docs, Form(Some(email)), id2, now2, true, createUp2);
      && first.response.status == 200
      && second.response.status == 409
      && second.docs == first.docs
      && SubscriberIds(second.docs, email) == {id1}
  {
    NewEmailSubscribed(docs, email, id1, now1);
    IsEmailMatchesPattern(email);
  }
}
