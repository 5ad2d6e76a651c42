/**
 * Normalisation of the ticket-pricing payload returned by the booking
 * backend's `/booking/tickets/mobile` endpoint into the list of ticket
 * types the selection screen consumes, and the one-level `result`
 * envelope unwrap applied before it. The HTTP request itself is not
 * modelled: the parsed `response.data` is a parameter.
 */
module BookingApi {
  import opened JsValues

  /** The visitor category inferred from a ticket type's display name. */
  datatype Category = Indian | Foreigner | Other

  /** The `type` string the frontend stores for a category. */
  function CategoryCode(c: Category): (code: string)
    ensures c == Indian <==> code == "INDIAN"
    ensures c == Foreigner <==> code == "FOREIGNER"
    ensures c == Other <==> code == "OTHER"
  {
    match c
    case Indian => "INDIAN"
    case Foreigner => "FOREIGNER"
    case Other => "OTHER"
  }

  /** A normalised ticket type; `id` is copied as it came, whatever its type. */
  datatype TicketType = TicketType(id: JsVal, name: string, price: real, category: Category)

  /** A JavaScript TypeError raised while normalising (property access on null, a missing method). */
  datatype Error = TypeError(reason: string)

  /** The result of `getBookingTickets`: the normalised list and the unprocessed payload. */
  datatype BookingTickets = BookingTickets(ticketTypes: seq<TicketType>, raw: JsVal)

  /** `dto.active === true`: strict equality, so truthy values such as `1` or `"true"` do not count. */
  predicate IsActive(dto: Json): (active: bool)
    ensures active <==> dto.JObj? && "active" in dto.fields && dto.fields["active"] == JBool(true)
    ensures Prop(Some(dto), "active") == Some(JNum(1.0)) || Prop(Some(dto), "active") == Some(JStr("true")) ==> !active
  {
    Prop(Some(dto), "active") == Some(JBool(true))
  }

  /** `dto.delete !== true`: an absent or non-boolean `delete` passes. */
  predicate IsNotDeleted(dto: Json): (kept: bool)
    ensures !kept <==> dto.JObj? && "delete" in dto.fields && dto.fields["delete"] == JBool(true)
  {
    Prop(Some(dto), "delete") != Some(JBool(true))
  }

  /** `typeof dto.amount === 'number' && dto.amount > 0` */
  predicate HasPriceSet(dto: Json): (priced: bool)
    ensures priced <==> dto.JObj? && "amount" in dto.fields && dto.fields["amount"].JNum? && dto.fields["amount"].n > 0.0
    ensures Prop(Some(dto), "amount").Some? && !Prop(Some(dto), "amount").value.JNum? ==> !priced
  {
    match Prop(Some(dto), "amount")
    case Some(JNum(n)) => n > 0.0
    case _ => false
  }

  /** The filter predicate of `normalizeTicketResponse`, stated on the record's own fields. */
  predicate Passes(dto: Json): (passes: bool)
    ensures passes <==> && dto.JObj?
                        && "active" in dto.fields && dto.fields["active"] == JBool(true)
                        && ("delete" in dto.fields ==> dto.fields["delete"] != JBool(true))
                        && "amount" in dto.fields && dto.fields["amount"].JNum? && dto.fields["amount"].n > 0.0
  {
    IsActive(dto) && IsNotDeleted(dto) && HasPriceSet(dto)
  }

  /**
   * Converting `v` to a string, as a template literal does, throws: a JSON
   * value is never callable, so an object with its own `toString` property
   * has no usable conversion ("Cannot convert object to primitive value"),
   * and an array is converted by converting its elements.
   */
  predicate ToStringThrows(v: Json) {
    match v
    case JObj(m) => "toString" in m
    case JArr(es) => exists i :: 0 <= i < |es| && ToStringThrows(es[i])
    case _ => false
  }

  /**
   * The filter callback throws on `dto`: reading `dto.active` of null, or
   * the log line's template literal, which converts `dto.masterTicketTypeName`
   * and `dto.amount` to strings.
   */
  predicate CallbackThrows(dto: Json) {
    || dto == JNull
    || (Prop(Some(dto), "masterTicketTypeName").Some? && ToStringThrows(Prop(Some(dto), "masterTicketTypeName").value))
    || (Prop(Some(dto), "amount").Some? && ToStringThrows(Prop(Some(dto), "amount").value))
  }

  /** `dto.masterTicketTypeName` is a string, so `toLowerCase` can be called on it. */
  predicate HasStringName(dto: Json) {
    Prop(Some(dto), "masterTicketTypeName").Some? && Prop(Some(dto), "masterTicketTypeName").value.JStr?
  }

  /**
   * `ticketTypeDtos.filter(...)`. The callback throws on a null element or
   * on a record whose name or amount cannot be converted to a string, so
   * the whole call fails exactly when the array holds such an element.
   */
  function FilterTickets(dtos: seq<Json>): (r: Result<seq<Json>, Error>)
    ensures r.Failure? <==> exists d :: d in dtos && CallbackThrows(d)
    ensures r.Success? ==> |r.value| <= |dtos|
    ensures r.Success? ==> forall d :: d in r.value <==> d in dtos && Passes(d)
  {
    if dtos == [] then Success([])
    else if dtos[0] == JNull then
      assert dtos[0] in dtos;
      Failure(TypeError("Cannot read properties of null (reading 'active')"))
    else if CallbackThrows(dtos[0]) then
      assert dtos[0] in dtos;
      Failure(TypeError("Cannot convert object to primitive value"))
    else
      match FilterTickets(dtos[1..])
      case Failure(e) => Failure(e)
      case Success(rest) => Success(if Passes(dtos[0]) then [dtos[0]] + rest else rest)
  }

  /**
   * The category rule: INDIAN if the lower-cased name includes "indian",
   * otherwise FOREIGNER if it includes "foreign" or "foreigner", otherwise OTHER.
   */
  function Classify(name: string): (c: Category)
    ensures c == Indian <==> Includes(ToLower(name), "indian")
  {
    var lower := ToLower(name);
    if Includes(lower, "indian") then Indian
    else if Includes(lower, "foreign") || Includes(lower, "foreigner") then Foreigner
    else Other
  }

  /** The object literal built by the `map` callback for one surviving record. */
  function ToTicket(dto: Json): (r: Result<TicketType, Error>)
    requires HasPriceSet(dto)
    ensures r.Success? <==> HasStringName(dto)
    ensures r.Success? ==> && r.value.id == Prop(Some(dto), "id")
                           && Prop(Some(dto), "masterTicketTypeName") == Some(JStr(r.value.name))
                           && Prop(Some(dto), "amount") == Some(JNum(r.value.price))
                           && r.value.price > 0.0
                           && r.value.category == Classify(r.value.name)
  {
    match Prop(Some(dto), "masterTicketTypeName")
    case Some(JStr(name)) =>
      var price := Prop(Some(dto), "amount").value.n;
      Success(TicketType(Prop(Some(dto), "id"), name, price, Classify(name)))
    case _ => Failure(TypeError("dto.masterTicketTypeName.toLowerCase is not a function"))
  }

  /** `filtered.map(...)`: fails at the first record whose name is not a string. */
  function MapTickets(kept: seq<Json>): (r: Result<seq<TicketType>, Error>)
    requires forall d :: d in kept ==> HasPriceSet(d)
    ensures r.Failure? <==> exists i :: 0 <= i < |kept| && !HasStringName(kept[i])
    ensures r.Success? ==> |r.value| == |kept|
    ensures r.Success? ==> forall i :: 0 <= i < |kept| ==> ToTicket(kept[i]) == Success(r.value[i])
  {
    if kept == [] then Success([])
    else
      match ToTicket(kept[0])
      case Failure(e) => Failure(e)
      case Success(t) =>
        match MapTickets(kept[1..])
        case Failure(e) => Failure(e)
        case Success(rest) => Success([t] + rest)
  }

  /** `normalizeTicketResponse(response)` */
  function NormalizeTicketResponse(response: JsVal): (r: Result<seq<TicketType>, Error>)
    ensures !Truthy(response) || !IsObjectType(response) ==> r == Success([])
    ensures !Truthy(Prop(response, "ticketTypeDtos")) ==> r == Success([])
    ensures Truthy(Prop(response, "ticketTypeDtos")) && !Prop(response, "ticketTypeDtos").value.JArr? ==> r == Success([])
    ensures r.Success? ==> forall t :: t in r.value ==> t.price > 0.0
  {
    if !Truthy(response) || !IsObjectType(response) then Success([])
    else
      var dtos := Prop(response, "ticketTypeDtos");
      if !Truthy(dtos) || !dtos.value.JArr? then Success([])
      else
        match FilterTickets(dtos.value.elems)
        case Failure(e) => Failure(e)
        case Success(kept) => MapTickets(kept)
  }

  /** `response?.data?.result || response?.data`: exactly one envelope level is removed. */
  function UnwrapResult(data: JsVal): (r: JsVal)
    ensures Truthy(Prop(data, "result")) ==> r == Prop(data, "result")
    ensures !Truthy(Prop(data, "result")) ==> r == data
  {
    Or(Prop(data, "result"), data)
  }

  /**
   * The log argument `responseData?.ticketTypeDtos?.map(t => ({id: t.id, ...}))`,
   * evaluated before normalising. `?.` skips only a null or undefined
   * `ticketTypeDtos`: any other non-array has no `map`, and `t.id` of a null
   * element throws.
   */
  function PreviewError(responseData: JsVal): (r: Option<Error>)
    ensures var v := Prop(responseData, "ticketTypeDtos");
            r.None? <==> v.None? || v.value.JNull? || (v.value.JArr? && JNull !in v.value.elems)
  {
    match Prop(responseData, "ticketTypeDtos")
    case None => None
    case Some(JNull) => None
    case Some(JArr(es)) => if JNull in es then Some(TypeError("Cannot read properties of null (reading 'id')")) else None
    case Some(_) => Some(TypeError("responseData?.ticketTypeDtos?.map is not a function"))
  }

  /** `getBookingTickets` after the HTTP call: `data` is the parsed response body. */
  function GetBookingTickets(data: JsVal): (r: Result<BookingTickets, Error>)
    ensures var v := Prop(UnwrapResult(data), "ticketTypeDtos");
            v.Some? && !v.value.JNull? && !v.value.JArr? ==> r.Failure?
    ensures var v := Prop(UnwrapResult(data), "ticketTypeDtos");
            v.None? || v.value.JNull? ==> r == Success(BookingTickets([], data))
    ensures var v := Prop(UnwrapResult(data), "ticketTypeDtos");
            v.Some? && v.value.JArr? ==> (r.Success? <==> NormalizeTicketResponse(UnwrapResult(data)).Success?)
    ensures r.Success? ==> r.value.raw == data
    ensures r.Success? ==> r.value.ticketTypes == NormalizeTicketResponse(UnwrapResult(data)).value
  {
    var responseData := UnwrapResult(data);
    match PreviewError(responseData)
    case Some(e) => Failure(e)
    case None =>
      match NormalizeTicketResponse(responseData)
      case Failure(e) => Failure(e)
      case Success(ts) => Success(BookingTickets(ts, data))
  }

  // ---------------------------------------------------------------------
  // Properties of the filter
  // ---------------------------------------------------------------------

  /** A single record is kept exactly when it passes the three checks. */
  lemma FilterSingle(x: Json)
    requires !CallbackThrows(x)
    ensures FilterTickets([x]) == Success(if Passes(x) then [x] else [])
  {
    assert [x][1..] == [];
    assert FilterTickets([]) == Success([]);
    assert [x] + [] == [x];
  }

  /**
   * Filtering distributes over concatenation; with `FilterSingle` this
   * says the output is the passing records in their input order.
   */
  lemma {:induction false} FilterConcat(a: seq<Json>, b: seq<Json>)
    requires forall d :: d in a ==> !CallbackThrows(d)
    requires forall d :: d in b ==> !CallbackThrows(d)
    ensures FilterTickets(a + b).Success?
    ensures FilterTickets(a + b).value == FilterTickets(a).value + FilterTickets(b).value
  {
    if a == [] {
      assert a + b == b;
    } else {
      assert (a + b)[0] == a[0];
      assert (a + b)[1..] == a[1..] + b;
      FilterConcat(a[1..], b);
    }
  }

  /** Inactive, deleted, unpriced and string-priced records are dropped; an active priced one is kept with or without `delete`. */
  lemma PassesExamples()
    ensures !Passes(JObj(map["active" := JBool(false), "amount" := JNum(50.0)]))
    ensures !Passes(JObj(map["active" := JBool(true), "delete" := JBool(true), "amount" := JNum(50.0)]))
    ensures !Passes(JObj(map["active" := JBool(true), "delete" := JBool(false), "amount" := JNum(0.0)]))
    ensures Passes(JObj(map["active" := JBool(true), "delete" := JBool(false), "amount" := JNum(50.0)]))
    ensures Passes(JObj(map["active" := JBool(true), "amount" := JNum(50.0)]))
    ensures !Passes(JObj(map["active" := JBool(true), "amount" := JStr("50")]))
  {
  }

  // ---------------------------------------------------------------------
  // Properties of the category rule
  // ---------------------------------------------------------------------

  /** The `includes('foreigner')` test never decides anything: it implies `includes('foreign')`. */
  lemma ForeignerTestRedundant(lower: string)
    ensures Includes(lower, "foreign") || Includes(lower, "foreigner") <==> Includes(lower, "foreign")
  {
    if Includes(lower, "foreigner") {
      IncludesPrefix(lower, "foreign", "foreigner");
    }
  }

  /** INDIAN takes precedence over FOREIGNER, which takes precedence over OTHER. */
  lemma ClassifyPrecedence(name: string)
    ensures Classify(name) == Foreigner <==> !Includes(ToLower(name), "indian") && Includes(ToLower(name), "foreign")
    ensures Classify(name) == Other <==> !Includes(ToLower(name), "indian") && !Includes(ToLower(name), "foreign")
  {
    ForeignerTestRedundant(ToLower(name));
  }

  /** Matching ignores the case of ASCII letters. */
  lemma ClassifyIgnoresCase(a: string, b: string)
    requires ToLower(a) == ToLower(b)
    ensures Classify(a) == Classify(b)
  {
  }

  // ---------------------------------------------------------------------
  // Properties of the whole normalisation
  // ---------------------------------------------------------------------

  /** The payload `{ticketTypeDtos: dtos}` (other fields do not matter). */
  predicate CarriesDtos(response: JsVal, dtos: seq<Json>) {
    Prop(response, "ticketTypeDtos") == Some(JArr(dtos))
  }

  /**
   * For a payload that carries a `ticketTypeDtos` array, normalisation
   * succeeds unless the filter callback throws on some element or a kept
   * record has a non-string name; on success its output holds one converted
   * ticket per kept record, in order, and a record is represented iff it passes.
   */
  lemma NormalizeKeepsExactlyPassing(response: JsVal, dtos: seq<Json>)
    requires CarriesDtos(response, dtos)
    ensures NormalizeTicketResponse(response).Success? <==>
              (forall d :: d in dtos ==> !CallbackThrows(d)) && forall d :: d in dtos && Passes(d) ==> HasStringName(d)
    ensures NormalizeTicketResponse(response).Success? ==>
              FilterTickets(dtos).Success? && NormalizeTicketResponse(response) == MapTickets(FilterTickets(dtos).value)
    ensures NormalizeTicketResponse(response).Success? ==>
              var ts := NormalizeTicketResponse(response).value;
              && |ts| <= |dtos|
              && (forall t :: t in ts ==> exists d :: d in dtos && Passes(d) && ToTicket(d) == Success(t))
              && (forall d :: d in dtos && Passes(d) ==> exists t :: t in ts && ToTicket(d) == Success(t))
  {
    NormalizeUnfolds(response, dtos);
    PipelineSucceedsIff(dtos);
    if NormalizeTicketResponse(response).Success? {
      PipelineShape(dtos);
    }
  }

  /** The filter followed by the map succeeds iff no callback throws and every passing record has a string name. */
  lemma PipelineSucceedsIff(dtos: seq<Json>)
    ensures FilterTickets(dtos).Success? && MapTickets(FilterTickets(dtos).value).Success? <==>
              (forall d :: d in dtos ==> !CallbackThrows(d)) && forall d :: d in dtos && Passes(d) ==> HasStringName(d)
  {
    var fr := FilterTickets(dtos);
    if fr.Success? {
      var kept := fr.value;
      if MapTickets(kept).Failure? {
        var i :| 0 <= i < |kept| && !HasStringName(kept[i]);
        assert kept[i] in dtos && Passes(kept[i]);
      } else {
        forall d | d in dtos && Passes(d) ensures HasStringName(d) {
          var i :| 0 <= i < |kept| && kept[i] == d;
        }
      }
    }
  }

  /** A successful filter and map keeps a ticket exactly for each passing record. */
  lemma PipelineShape(dtos: seq<Json>)
    requires FilterTickets(dtos).Success? && MapTickets(FilterTickets(dtos).value).Success?
    ensures var ts := MapTickets(FilterTickets(dtos).value).value;
            && |ts| <= |dtos|
            && (forall t :: t in ts ==> exists d :: d in dtos && Passes(d) && ToTicket(d) == Success(t))
            && (forall d :: d in dtos && Passes(d) ==> exists t :: t in ts && ToTicket(d) == Success(t))
  {
    var kept := FilterTickets(dtos).value;
    var ts := MapTickets(kept).value;
    forall t | t in ts
      ensures exists d :: d in dtos && Passes(d) && ToTicket(d) == Success(t)
    {
      var i :| 0 <= i < |ts| && ts[i] == t;
      assert kept[i] in kept;
    }
    forall d | d in dtos && Passes(d)
      ensures exists t :: t in ts && ToTicket(d) == Success(t)
    {
      var i :| 0 <= i < |kept| && kept[i] == d;
      assert ts[i] in ts;
    }
  }

  /** On a payload carrying an array, normalisation is the filter followed by the map. */
  lemma NormalizeUnfolds(response: JsVal, dtos: seq<Json>)
    requires CarriesDtos(response, dtos)
    ensures FilterTickets(dtos).Failure? ==> NormalizeTicketResponse(response).Failure?
    ensures FilterTickets(dtos).Success? ==> NormalizeTicketResponse(response) == MapTickets(FilterTickets(dtos).value)
  {
    assert Truthy(response) && IsObjectType(response);
  }

  /** "Indian Citizen" is INDIAN. */
  lemma ClassifyIndianCitizen()
    ensures Classify("Indian Citizen") == Indian
  {
    IndianCitizenMatches();
  }

  lemma IndianCitizenMatches()
    ensures Includes(ToLower("Indian Citizen"), "indian")
  {
    assert ToLower("Indian") == "indian";
    LowerHeadIncludes("Indian", " Citizen", "indian");
    assert "Indian" + " Citizen" == "Indian Citizen";
  }

  /** "Foreign Tourist" is FOREIGNER. */
  lemma ClassifyForeignTourist()
    ensures Classify("Foreign Tourist") == Foreigner
  {
    ForeignTouristMatches();
    ForeignTouristNotIndian();
    ClassifyPrecedence("Foreign Tourist");
  }

  lemma ForeignTouristMatches()
    ensures Includes(ToLower("Foreign Tourist"), "foreign")
  {
    assert ToLower("Foreign") == "foreign";
    LowerHeadIncludes("Foreign", " Tourist", "foreign");
    assert "Foreign" + " Tourist" == "Foreign Tourist";
  }

  lemma ForeignTouristNotIndian()
    ensures !Includes(ToLower("Foreign Tourist"), "indian")
  {
    LowerKeepsAbsent("Foreign Tourist", 'd');
    MissingCharExcludes(ToLower("Foreign Tourist"), "indian", 'd');
  }

  /** "Student" is OTHER. */
  lemma ClassifyStudent()
    ensures Classify("Student") == Other
  {
    LowerKeepsAbsent("Student", 'a');
    MissingCharExcludes(ToLower("Student"), "indian", 'a');
    LowerKeepsAbsent("Student", 'f');
    MissingCharExcludes(ToLower("Student"), "foreign", 'f');
    ClassifyPrecedence("Student");
  }

  /** A name mentioning both categories resolves to INDIAN. */
  lemma ClassifyBoth()
    ensures Classify("Indian and Foreigner") == Indian
  {
    assert ToLower("Indian") == "indian";
    LowerHeadIncludes("Indian", " and Foreigner", "indian");
    assert "Indian" + " and Foreigner" == "Indian and Foreigner";
  }

  // ---------------------------------------------------------------------
  // Properties of the envelope unwrap
  // ---------------------------------------------------------------------

  /** A payload with no truthy `result` normalises the same whether or not it is wrapped once. */
  lemma WrappedOnceSameAsDirect(payload: Json)
    requires !Truthy(Prop(Some(payload), "result"))
    ensures GetBookingTickets(Some(JObj(map["result" := payload]))).Success? <==> GetBookingTickets(Some(payload)).Success?
    ensures GetBookingTickets(Some(JObj(map["result" := payload]))).Success? ==>
              GetBookingTickets(Some(JObj(map["result" := payload]))).value.ticketTypes
                == GetBookingTickets(Some(payload)).value.ticketTypes
  {
  }

  /** Only one level is removed: a doubly wrapped list of tickets normalises to the empty list. */
  lemma TwoLevelsNotUnwrapped(inner: Json)
    ensures var data := Some(JObj(map["result" := JObj(map["result" := inner])]));
            GetBookingTickets(data) == Success(BookingTickets([], data))
  {
    var data := Some(JObj(map["result" := JObj(map["result" := inner])]));
    assert UnwrapResult(data) == Some(JObj(map["result" := inner]));
    assert Prop(UnwrapResult(data), "ticketTypeDtos") == None;
  }

  /**
   * A `ticketTypeDtos` that is neither an array nor null makes the log line
   * throw, although the normaliser alone would return the empty list.
   */
  lemma NonArrayDtosRejected(v: Json)
    requires !v.JNull? && !v.JArr?
    ensures var data := Some(JObj(map["ticketTypeDtos" := v]));
            GetBookingTickets(data).Failure? && NormalizeTicketResponse(data) == Success([])
  {
    var data := Some(JObj(map["ticketTypeDtos" := v]));
    assert UnwrapResult(data) == data;
  }

  /** A name object with its own `toString` property makes the filter throw instead of dropping the record. */
  lemma UnprintableNameRejected()
    ensures FilterTickets([JObj(map["masterTicketTypeName" := JObj(map["toString" := JNum(0.0)])])]).Failure?
  {
    var x := JObj(map["masterTicketTypeName" := JObj(map["toString" := JNum(0.0)])]);
    assert CallbackThrows(x);
  }

  /** The log line and the filter agree on arrays: a null element fails both. */
  lemma NullElementFailsBoth(data: JsVal, dtos: seq<Json>)
    requires CarriesDtos(UnwrapResult(data), dtos)
    requires JNull in dtos
    ensures GetBookingTickets(data).Failure? && NormalizeTicketResponse(UnwrapResult(data)).Failure?
  {
  }
}
