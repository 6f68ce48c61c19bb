/**
 The two response encoders and the memory they work in: the JSON of a WebSocket answer, downgraded to the
 error response when it does not fit, and the form of a POST.
 */
module Encoders {
  import opened Options
  import opened Bytes
  import opened Protocol
  import opened FormEncoding
  import opened Memory
  import opened Timing

  // -------------------------------------------------------------- response_json

  /** Appends the characters of a JSON string, byte by byte, into memory that is already there. */
  method WriteContent(buffer: ByteVec, s: bytes)
    requires buffer.Valid() && |buffer.data| + |EncodeContent(s)| <= buffer.capacity
    modifies buffer`data
    ensures buffer.Valid() && buffer.data == old(buffer.data) + EncodeContent(s)
  {
    var i := 0;
    assert s[..0] == [] && s[..|s|] == s;
    while i < |s|
      invariant i <= |s|
      invariant buffer.Valid() && buffer.data == old(buffer.data) + EncodeContent(s[..i])
    {
      ContentSplit(s, i);
      buffer.Extend(EscapeByte(s[i]));
      i := i + 1;
    }
  }

  lemma {:induction false} ContentSplit(s: bytes, i: nat)
    requires i < |s|
    ensures EncodeContent(s[..i + 1]) == EncodeContent(s[..i]) + EscapeByte(s[i])
    ensures |EncodeContent(s[..i])| + |EscapeByte(s[i])| <= |EncodeContent(s)|
  {
    EncodeContentConcat(s[..i], [s[i]]);
    assert s[..i + 1] == s[..i] + [s[i]];
    assert EncodeContent([s[i]]) == EscapeByte(s[i]) + EncodeContent([s[i]][1..]);
    EncodeContentConcat(s[..i + 1], s[i + 1..]);
    assert s == s[..i + 1] + s[i + 1..];
  }

  /**
   The serializer writes into a buffer of the exact length, so nothing is reallocated on the way, and the result is
   valid UTF-8, so the conversion to a string cannot fail.
   */
  method ResponseJson(r: ResourceResponse, spare: nat, usizeMax: nat) returns (buffer: ByteVec)
    requires usizeMax >= 0xFFFF && |EncodeResponse(r)| <= usizeMax
    requires ValidUtf8(r.uid) && ValidUtf8(r.body)
    ensures fresh(buffer) && buffer.Valid() && buffer.data == EncodeResponse(r) && ValidUtf8(buffer.data)
    ensures buffer.capacity == |EncodeResponse(r)| + spare
  {
    hide ValidUtf8;
    JsonPrecheckIsExact(r, usizeMax);
    JsonIsUtf8(r);
    EncodedParts(r);
    DecimalDigitsIsExact(r.status);
    var capacity := ResponseJsonEncodedLen(r, usizeMax);
    hide EncodeContent;
    hide Decimal;
    buffer := new ByteVec.WithCapacity(if capacity.Some? then capacity.value else 0, spare);
    buffer.Extend(PREFIX);
    WriteContent(buffer, r.uid);
    buffer.Extend(BETWEEN_STRINGS);
    WriteContent(buffer, r.body);
    buffer.Extend(BEFORE_STATUS);
    buffer.Extend(Decimal(r.status));
    buffer.Extend(END);
    JoinParts(PREFIX, EncodeContent(r.uid), BETWEEN_STRINGS, EncodeContent(r.body), BEFORE_STATUS, Decimal(r.status),
        END);
  }

  lemma {:induction false} JoinParts(a: bytes, b: bytes, c: bytes, d: bytes, e: bytes, f: bytes, g: bytes)
    ensures ((((([] + a) + b) + c) + d) + e) + f + g == a + (b + (c + (d + (e + (f + g)))))
  {
  }

  // ------------------------------------------------------- bounded_response_json

  datatype EncodeError =
    | LengthOverflow               // "websocket response length calculation overflowed"
    | FallbackOverflow             // "websocket fallback length calculation overflowed"
    | MetadataTooLarge             // "websocket response metadata exceeds the message limit"
    | FallbackRefused(n: nat, seen: nat)   // the `n` bytes of the error response did not fit next to `seen`
    | SlackRefused(n: nat, seen: nat)      // `n` bytes the allocator added did not fit next to `seen`
    | EncoderFailed
    | LengthMismatch               // "websocket response length precheck disagreed with serializer"

  datatype EncodedResponse = EncodedResponse(json: ByteVec, reservation: MemoryReservation)

  datatype Encoding = Encoded(e: EncodedResponse) | Rejected(error: EncodeError)

  /** A serializer that may fail; it is defined only for responses whose JSON is within the limit. */
  type Encoder = ResourceResponse --> Option<bytes>

  ghost predicate DefinedWithin(encoder: Encoder, limit: nat) {
    forall r :: |EncodeResponse(r)| <= limit ==> encoder.requires(r)
  }

  /** What the counter holds when memory is asked for: for the original, for the error response, and for the slack. */
  datatype Levels = Levels(first: nat, fallback: nat, slack: nat)

  /** Does the original fit, given the level of the budget when its memory is asked for? */
  predicate OriginalFits(original: ResourceResponse, limit: nat, budgetLimit: nat, seen: nat) {
    |EncodeResponse(original)| <= limit && seen + |EncodeResponse(original)| <= budgetLimit
  }

  /** And the error response? */
  predicate FallbackFits(original: ResourceResponse, budgetLimit: nat, seen: nat) {
    seen + |EncodeResponse(ErrorFor(original.uid))| <= budgetLimit
  }

  /**
   What a worker that holds `share`, `bodyBytes` of it for the body of `original`, finds in the counter from its access
   `i` on: the body is given up for the error response, and what is encoded is reserved before its slack.
   */
  function Found(
      budget: MemoryBudget, i: nat, share: nat, bodyBytes: nat, original: ResourceResponse, limit: nat): Levels
    requires bodyBytes <= share
  {
    var first := budget.LevelAt(i, share);
    if OriginalFits(original, limit, budget.limit, first) then
      Levels(first, first, budget.LevelAt(i + 1, share + |EncodeResponse(original)|))
    else
      var next := if |EncodeResponse(original)| <= limit then i + 2 else i + 1;
      Levels(first, budget.LevelAt(next, share - bodyBytes),
        budget.LevelAt(next + 1, share - bodyBytes + |EncodeResponse(ErrorFor(original.uid))|))
  }

  /** What the response's worker finds in the counter when it encodes the response next. */
  function FoundBy(response: BudgetedResponse, limit: nat): Levels
    requires response.Valid()
    reads response, response.uid, response.body, response.retained, response.retained.budget
  {
    var budget := response.retained.budget;
    Found(budget, budget.accesses, budget.held, response.body.capacity, response.Value(), limit)
  }

  /** What each error means: `r` is the response as it was when the error occurred. */
  ghost predicate ErrorMeans(error: EncodeError, original: ResourceResponse, r: ResourceResponse, downgraded: bool,
                             limit: nat, budgetLimit: nat, usizeMax: nat, spare: nat, encoder: Encoder, found: Levels)
  {
    match error
    case LengthOverflow => |EncodeResponse(original)| > usizeMax
    case FallbackOverflow => downgraded && |EncodeResponse(r)| > usizeMax
    case MetadataTooLarge => downgraded && |EncodeResponse(r)| > limit
    case FallbackRefused(n, seen) =>
      && downgraded && |EncodeResponse(r)| <= limit
      && n == |EncodeResponse(r)| && seen == found.fallback && !FallbackFits(original, budgetLimit, seen)
    case SlackRefused(n, seen) =>
      && |EncodeResponse(r)| <= limit && (downgraded ==> FallbackFits(original, budgetLimit, found.fallback))
      && n == spare && seen == found.slack && seen + n > budgetLimit
    case EncoderFailed => |EncodeResponse(r)| <= limit && encoder.requires(r) && encoder(r) == None
    case LengthMismatch =>
      |EncodeResponse(r)| <= limit && encoder.requires(r) && encoder(r).Some?
          && |encoder(r).value| != |EncodeResponse(r)|
  }

  /**
   Encodes the response if its JSON is within the message limit and its memory within the budget; otherwise the error
   response for the same uid, or nothing. The encoder is only ever given a response whose exact length is reserved
   and within the limit; the JSON that comes out is covered by its reservation to the byte.
   */
  method BoundedResponseJsonWithLimitAndEncoder(
      response: BudgetedResponse, budget: MemoryBudget, limit: nat, usizeMax: nat, spare: nat, encoder: Encoder)
    returns (r: Encoding, downgraded: bool)
    requires response.Valid() && response.retained.budget == budget && 0xFFFF <= usizeMax
    requires DefinedWithin(encoder, limit)
    modifies response, response.retained, budget
    ensures response.Valid() && response.uid == old(response.uid)
    ensures response.Value() == if downgraded then ErrorFor(old(response.Value()).uid) else old(response.Value())
    ensures var found := old(FoundBy(response, limit));
            && (downgraded <==> |EncodeResponse(old(response.Value()))| <= usizeMax
                                && !OriginalFits(old(response.Value()), limit, budget.limit, found.first))
            && (r.Encoded? ==>
                  && (downgraded ==> FallbackFits(old(response.Value()), budget.limit, found.fallback))
                  && found.slack + spare <= budget.limit)
            && (r.Rejected? ==>
                  ErrorMeans(r.error, old(response.Value()), response.Value(), downgraded, limit, budget.limit,
                      usizeMax, spare, encoder, found))
    ensures downgraded ==> response.retained.bytes == response.uid.capacity
    ensures budget.held - response.retained.bytes - old(budget.held) + old(response.retained.bytes)
            == if r.Encoded? then r.e.json.capacity else 0
    ensures r.Encoded? ==>
              && fresh(r.e.json) && r.e.json.Valid() && fresh(r.e.reservation) && r.e.reservation.Valid()
              && r.e.reservation.budget == budget && r.e.reservation.bytes == r.e.json.capacity
              && |EncodeResponse(response.Value())| == |r.e.json.data| <= limit
              && r.e.json.capacity == |r.e.json.data| + spare
              && encoder.requires(response.Value()) && encoder(response.Value()) == Some(r.e.json.data)
  {
    hide EncodeResponse;
    hide ResponseJsonEncodedLen;
    hide ValidUtf8;
    hide Found;
    hide OriginalFits;
    hide FallbackFits;
    var reserving;
    reserving, downgraded := ReserveLength(response, budget, limit, usizeMax);
    if reserving.Refused? {
      return Rejected(reserving.error), downgraded;
    }
    var reservation := reserving.reservation;
    r := EncodeReserved(response.Value(), reservation.bytes, reservation, spare, encoder);
  }

  datatype Reserving = Covered(reservation: MemoryReservation) | Refused(error: EncodeError)

  /** Reserves the exact length of the original, or gives it up and reserves that of the error response. */
  method ReserveLength(response: BudgetedResponse, budget: MemoryBudget, limit: nat, usizeMax: nat)
    returns (r: Reserving, downgraded: bool)
    requires response.Valid() && response.retained.budget == budget && 0xFFFF <= usizeMax
    modifies response, response.retained, budget
    ensures response.Valid() && response.uid == old(response.uid)
    ensures response.Value() == if downgraded then ErrorFor(old(response.Value()).uid) else old(response.Value())
    ensures downgraded ==> response.retained.bytes == response.uid.capacity
    ensures budget.held - response.retained.bytes - old(budget.held) + old(response.retained.bytes)
            == if r.Covered? then r.reservation.bytes else 0
    ensures r.Covered? ==>
              && fresh(r.reservation) && r.reservation.Valid() && r.reservation.budget == budget
              && r.reservation.bytes == |EncodeResponse(response.Value())| <= limit
    ensures var found := old(FoundBy(response, limit));
            && (downgraded <==> |EncodeResponse(old(response.Value()))| <= usizeMax
                                && !OriginalFits(old(response.Value()), limit, budget.limit, found.first))
            && (r.Covered? ==>
                  && (downgraded ==> FallbackFits(old(response.Value()), budget.limit, found.fallback))
                  && budget.Level() == found.slack)
            && (r.Refused? ==>
                  match r.error
                  case LengthOverflow => |EncodeResponse(old(response.Value()))| > usizeMax
                  case FallbackOverflow => downgraded && |EncodeResponse(response.Value())| > usizeMax
                  case MetadataTooLarge => downgraded && |EncodeResponse(response.Value())| > limit
                  case FallbackRefused(n, seen) =>
                    && downgraded && n == |EncodeResponse(response.Value())| <= limit
                    && seen == found.fallback && !FallbackFits(old(response.Value()), budget.limit, seen)
                  case _ => false)
  {
    hide EncodeResponse;
    hide ResponseJsonEncodedLen;
    hide ValidUtf8;
    hide MemoryBudget.LevelAt;
    downgraded := false;
    JsonPrecheckIsExact(response.Value(), usizeMax);
    var originalLength := ResponseJsonEncodedLen(response.Value(), usizeMax);
    if originalLength.None? {
      return Refused(LengthOverflow), downgraded;
    }
    if originalLength.value <= limit {
      var granted, seen := budget.TryReserve(originalLength.value);
      if granted.Some? {
        return Covered(granted.value), downgraded;
      }
    }
    r := ReserveFallback(response, budget, limit, usizeMax);
    return r, true;
  }

  /** Gives the original up for the error response and reserves the length of that. */
  method ReserveFallback(response: BudgetedResponse, budget: MemoryBudget, limit: nat, usizeMax: nat)
    returns (r: Reserving)
    requires response.Valid() && response.retained.budget == budget && 0xFFFF <= usizeMax
    modifies response, response.retained, budget
    ensures response.Valid() && response.uid == old(response.uid) && response.retained.bytes == response.uid.capacity
    ensures response.Value() == ErrorFor(old(response.Value()).uid)
    ensures budget.held == old(budget.held) - old(response.body.capacity)
                + (if r.Covered? then r.reservation.bytes else 0)
    ensures var n := |EncodeResponse(response.Value())|;
            var seen := budget.LevelAt(old(budget.accesses) + 1, old(budget.held) - old(response.body.capacity));
            && (r.Covered? ==>
                  && fresh(r.reservation) && r.reservation.Valid() && r.reservation.budget == budget
                  && r.reservation.bytes == n <= limit && seen + n <= budget.limit
                  && budget.accesses == old(budget.accesses) + 2)
            && (r.Refused? ==>
                  match r.error
                  case FallbackOverflow => n > usizeMax
                  case MetadataTooLarge => n > limit
                  case FallbackRefused(m, found) => m == n <= limit && found == seen && seen + n > budget.limit
                  case _ => false)
  {
    hide EncodeResponse;
    hide ResponseJsonEncodedLen;
    response.DowngradeToError();
    JsonPrecheckIsExact(response.Value(), usizeMax);
    var fallbackLength := ResponseJsonEncodedLen(response.Value(), usizeMax);
    if fallbackLength.None? {
      return Refused(FallbackOverflow);
    }
    if fallbackLength.value > limit {
      return Refused(MetadataTooLarge);
    }
    var granted, seen := budget.TryReserve(fallbackLength.value);
    if granted.None? {
      return Refused(FallbackRefused(fallbackLength.value, seen));
    }
    return Covered(granted.value);
  }

  /** Runs the encoder under a reservation of the expected length; on failure the reservation is dropped. */
  method EncodeReserved(response: ResourceResponse, encodedLength: nat, reservation: MemoryReservation, spare: nat,
                        encoder: Encoder)
    returns (r: Encoding)
    requires reservation.Valid() && reservation.bytes == encodedLength && encoder.requires(response)
    modifies reservation, reservation.budget
    ensures reservation.budget.Valid()
    ensures reservation.budget.held - old(reservation.budget.held) + encodedLength ==
              if r.Encoded? then r.e.json.capacity else 0
    ensures r.Encoded? ==>
              && fresh(r.e.json) && r.e.json.Valid() && r.e.reservation == reservation && reservation.Valid()
              && reservation.bytes == r.e.json.capacity == encodedLength + spare
              && |r.e.json.data| == encodedLength && encoder(response) == Some(r.e.json.data)
              && old(reservation.budget.Level()) + spare <= reservation.budget.limit
    ensures r.Rejected? ==>
              match r.error
              case EncoderFailed => encoder(response) == None
              case LengthMismatch => encoder(response).Some? && |encoder(response).value| != encodedLength
              case SlackRefused(n, seen) =>
                && encoder(response).Some? && |encoder(response).value| == encodedLength
                && n == spare && seen == old(reservation.budget.Level()) && seen + n > reservation.budget.limit
              case _ => false
  {
    var produced := encoder(response);
    if produced.None? {
      reservation.Drop();
      return Rejected(EncoderFailed);
    }
    var json := new ByteVec.Produced(produced.value, spare);
    if |json.data| != encodedLength {
      reservation.Drop();
      return Rejected(LengthMismatch);
    }
    if json.capacity > encodedLength {
      var ok, seen := reservation.TryGrow(json.capacity - encodedLength);
      if !ok {
        reservation.Drop();
        return Rejected(SlackRefused(json.capacity - encodedLength, seen));
      }
    }
    return Encoded(EncodedResponse(json, reservation));
  }

  /**
   With the deployed encoder and limits: the frame decodes to the original response, or to the error response for
   the same uid; the only thing that can go wrong is that the budget refuses, and then exactly where it is too full.
   */
  method BoundedResponseJson(response: BudgetedResponse, budget: MemoryBudget, usizeMax: nat, spare: nat)
    returns (r: Encoding, downgraded: bool)
    requires response.Valid() && response.retained.budget == budget && 0xFFFF_FFFF <= usizeMax
    requires |response.uid.data| <= MAX_UID_SIZE && |response.body.data| <= MAX_BODY_SIZE
    modifies response, response.retained, budget
    ensures response.Valid() && response.uid == old(response.uid)
    ensures response.Value() == if downgraded then ErrorFor(old(response.Value()).uid) else old(response.Value())
    ensures var found := old(FoundBy(response, MAX_WS_MESSAGE_SIZE));
            && (downgraded <==> !OriginalFits(old(response.Value()), MAX_WS_MESSAGE_SIZE, budget.limit, found.first))
            && (r.Encoded? <==>
                  && (downgraded ==> FallbackFits(old(response.Value()), budget.limit, found.fallback))
                  && found.slack + spare <= budget.limit)
            && (r.Rejected? ==>
                  r.error == if downgraded && !FallbackFits(old(response.Value()), budget.limit, found.fallback) then
                               FallbackRefused(|EncodeResponse(response.Value())|, found.fallback)
                             else SlackRefused(spare, found.slack))
    ensures downgraded ==> response.retained.bytes == response.uid.capacity
    ensures budget.held == old(budget.held) - (old(response.retained.bytes) - response.retained.bytes)
                + (if r.Encoded? then r.e.json.capacity else 0)
    ensures r.Encoded? ==>
              && fresh(r.e.json) && fresh(r.e.reservation) && r.e.reservation.Valid()
              && r.e.reservation.budget == budget
              && r.e.json.data == EncodeResponse(response.Value()) && r.e.json.Valid()
              && DecodeResponse(r.e.json.data) == Some(response.Value()) && |r.e.json.data| <= MAX_WS_MESSAGE_SIZE
              && r.e.reservation.bytes == r.e.json.capacity == |r.e.json.data| + spare
  {
    var original := response.Value();
    JsonPrecheckIsExact(original, usizeMax);
    JsonPrecheckNeverOverflows(original, usizeMax);
    FallbackLength(original.uid);
    hide EncodeResponse;
    hide DecodeResponse;
    hide ResponseJsonEncodedLen;
    hide Found;
    var encoder := (r: ResourceResponse) => Some(EncodeResponse(r));
    r, downgraded := BoundedResponseJsonWithLimitAndEncoder(response, budget, MAX_WS_MESSAGE_SIZE, usizeMax, spare,
        encoder);
    JsonRoundTrip(response.Value());
  }

  // ------------------------------------------------------------------ encode_form

  method WriteComponent(buffer: ByteVec, s: bytes)
    requires buffer.Valid() && |buffer.data| + |SerializeComponent(s)| <= buffer.capacity
    modifies buffer`data
    ensures buffer.Valid() && buffer.data == old(buffer.data) + SerializeComponent(s)
  {
    var i := 0;
    assert s[..0] == [] && s[..|s|] == s;
    while i < |s|
      invariant i <= |s|
      invariant buffer.Valid() && buffer.data == old(buffer.data) + SerializeComponent(s[..i])
    {
      ComponentSplit(s, i);
      buffer.Extend(SerializeByte(s[i]));
      i := i + 1;
    }
  }

  lemma {:induction false} ComponentConcat(a: bytes, b: bytes)
    ensures SerializeComponent(a + b) == SerializeComponent(a) + SerializeComponent(b)
  {
    if a == [] {
      assert a + b == b;
    } else {
      assert (a + b)[1..] == a[1..] + b;
      ComponentConcat(a[1..], b);
    }
  }

  lemma {:induction false} ComponentSplit(s: bytes, i: nat)
    requires i < |s|
    ensures SerializeComponent(s[..i + 1]) == SerializeComponent(s[..i]) + SerializeByte(s[i])
    ensures |SerializeComponent(s[..i])| + |SerializeByte(s[i])| <= |SerializeComponent(s)|
  {
    ComponentConcat(s[..i], [s[i]]);
    assert s[..i + 1] == s[..i] + [s[i]];
    assert SerializeComponent([s[i]]) == SerializeByte(s[i]) + SerializeComponent([s[i]][1..]);
    ComponentConcat(s[..i + 1], s[i + 1..]);
    assert s == s[..i + 1] + s[i + 1..];
  }

  /** The serializer's `append_pair`: `&` unless the buffer is still empty, then `name=value`. */
  method WritePair(buffer: ByteVec, name: bytes, value: bytes)
    requires buffer.Valid() && |AppendPair(buffer.data, name, value)| <= buffer.capacity
    modifies buffer`data
    ensures buffer.Valid() && buffer.data == AppendPair(old(buffer.data), name, value)
  {
    hide SerializeComponent;
    if |buffer.data| > 0 {
      buffer.Extend([AMPERSAND]);
    }
    WriteComponent(buffer, name);
    buffer.Extend([EQUALS]);
    WriteComponent(buffer, value);
  }

  /** Fills a buffer of the length the precheck announced; nothing is reallocated. */
  method WriteForm(r: ResourceResponse, encodedLength: nat, spare: nat) returns (buffer: ByteVec)
    requires |EncodeForm(r)| <= encodedLength
    ensures fresh(buffer) && buffer.Valid() && buffer.data == EncodeForm(r)
    ensures buffer.capacity == encodedLength + spare
  {
    var first := AppendPair([], STATUS_NAME, Decimal(r.status));
    FormByParts(r);
    buffer := new ByteVec.WithCapacity(encodedLength, spare);
    hide EncodeForm;
    WritePair(buffer, STATUS_NAME, Decimal(r.status));
    WritePair(buffer, BODY_NAME, r.body);
  }

  lemma {:induction false} FormByParts(r: ResourceResponse)
    ensures EncodeForm(r) == AppendPair(AppendPair([], STATUS_NAME, Decimal(r.status)), BODY_NAME, r.body)
    ensures |AppendPair([], STATUS_NAME, Decimal(r.status))| <= |EncodeForm(r)|
  {
    var pairs := ResponsePairs(r);
    assert pairs[..1] == [pairs[0]] && pairs[..1][..0] == [];
    assert Serialize(pairs[..1]) == AppendPair([], STATUS_NAME, Decimal(r.status));
  }

  // -------------------------------------------------------- prepare_form_request

  datatype PrepareError =
    | FormLengthOverflow             // "form response length calculation overflowed"
    | FormRefused(n: nat, seen: nat)
    | FormEncoderFailed
    | FormLengthMismatch             // "form response length precheck disagreed with serializer"
    | UidTooLong                     // the response URL is refused
    | BadHeader                      // an access header cannot be encoded

  datatype PreparedFormRequest = PreparedFormRequest(form: ByteVec, timeout: real, reservation: MemoryReservation)

  datatype Preparation = Prepared(request: PreparedFormRequest) | NotPrepared(error: PrepareError)

  type FormEncoder = (ResourceResponse, nat) -> Option<bytes>

  /** What the worker finds when it asks for the form's memory, and then for the form's slack. */
  function FormLevels(budget: MemoryBudget, i: nat, share: nat, length: nat): (nat, nat) {
    (budget.LevelAt(i, share), budget.LevelAt(i + 1, share + length))
  }

  /** The budget grants both. */
  predicate FormFits(levels: (nat, nat), length: nat, spare: nat, budgetLimit: nat) {
    levels.0 + length <= budgetLimit && levels.1 + spare <= budgetLimit
  }

  /** What the budget refuses if it does not. */
  function FormRefusal(levels: (nat, nat), length: nat, spare: nat, budgetLimit: nat): PrepareError {
    if levels.0 + length > budgetLimit then FormRefused(length, levels.0) else FormRefused(spare, levels.1)
  }

  predicate PrepareErrorMeans(error: PrepareError, r: ResourceResponse, levels: (nat, nat), spare: nat,
                              budgetLimit: nat, usizeMax: nat, headersOk: bool, encoder: FormEncoder)
  {
    match error
    case FormLengthOverflow => |EncodeForm(r)| > usizeMax
    case FormRefused(_, _) =>
      && !FormFits(levels, |EncodeForm(r)|, spare, budgetLimit)
      && error == FormRefusal(levels, |EncodeForm(r)|, spare, budgetLimit)
    case FormEncoderFailed => encoder(r, |EncodeForm(r)|) == None
    case FormLengthMismatch =>
      encoder(r, |EncodeForm(r)|).Some? && |encoder(r, |EncodeForm(r)|).value| != |EncodeForm(r)|
    case UidTooLong => |r.uid| > MAX_UID_SIZE && FormFits(levels, |EncodeForm(r)|, spare, budgetLimit)
    case BadHeader =>
      !headersOk && |r.uid| <= MAX_UID_SIZE && FormFits(levels, |EncodeForm(r)|, spare, budgetLimit)
  }

  datatype FormText = FormDone(form: ByteVec) | FormFailed(error: PrepareError)

  /** Runs the encoder under a reservation of the expected length; on failure the reservation is dropped. */
  method EncodeFormReserved(r: ResourceResponse, encodedLength: nat, reservation: MemoryReservation, spare: nat,
                            encoder: FormEncoder)
    returns (encoded: FormText)
    requires reservation.Valid() && reservation.bytes == encodedLength
    modifies reservation, reservation.budget
    ensures reservation.budget.Valid()
    ensures reservation.budget.held - old(reservation.budget.held) + encodedLength ==
              if encoded.FormDone? then encoded.form.capacity else 0
    ensures encoded.FormDone? ==>
              && fresh(encoded.form) && encoded.form.Valid() && reservation.Valid()
              && reservation.bytes == encoded.form.capacity == encodedLength + spare
              && |encoded.form.data| == encodedLength && encoder(r, encodedLength) == Some(encoded.form.data)
              && old(reservation.budget.Level()) + spare <= reservation.budget.limit
    ensures encoded.FormFailed? ==>
              match encoded.error
              case FormEncoderFailed => encoder(r, encodedLength) == None
              case FormLengthMismatch =>
                encoder(r, encodedLength).Some? && |encoder(r, encodedLength).value| != encodedLength
              case FormRefused(n, seen) =>
                && encoder(r, encodedLength).Some? && |encoder(r, encodedLength).value| == encodedLength
                && n == spare && seen == old(reservation.budget.Level()) && seen + n > reservation.budget.limit
              case _ => false
  {
    var produced := encoder(r, encodedLength);
    if produced.None? {
      reservation.Drop();
      return FormFailed(FormEncoderFailed);
    }
    var form := new ByteVec.Produced(produced.value, spare);
    if |form.data| != encodedLength {
      reservation.Drop();
      return FormFailed(FormLengthMismatch);
    }
    if form.capacity > encodedLength {
      var ok, seen := reservation.TryGrow(form.capacity - encodedLength);
      if !ok {
        reservation.Drop();
        return FormFailed(FormRefused(form.capacity - encodedLength, seen));
      }
    }
    return FormDone(form);
  }

  /**
   Prepares the POST of a response that stays as it is. The form is covered by its reservation to the byte, and the
   timeout follows from its length; on failure nothing stays reserved.
   */
  method PrepareFormRequestWithEncoder(response: BudgetedResponse, budget: MemoryBudget, postTimeout: real,
                                       headersOk: bool, usizeMax: nat, spare: nat, encoder: FormEncoder)
    returns (r: Preparation)
    requires response.Valid() && response.retained.budget == budget && 0xFFFF <= usizeMax
    modifies budget
    ensures response.Valid()
    ensures var length := |EncodeForm(response.Value())|;
            var levels := FormLevels(budget, old(budget.accesses), old(budget.held), length);
            && (r.Prepared? ==> FormFits(levels, length, spare, budget.limit))
            && (r.NotPrepared? ==>
                  PrepareErrorMeans(r.error, response.Value(), levels, spare, budget.limit, usizeMax, headersOk,
                      encoder))
    ensures r.Prepared? ==>
              && fresh(r.request.form) && r.request.form.Valid() && fresh(r.request.reservation)
              && r.request.reservation.Valid()
              && r.request.reservation.budget == budget && r.request.reservation.bytes == r.request.form.capacity
              && r.request.form.capacity == |r.request.form.data| + spare
              && encoder(response.Value(), |EncodeForm(response.Value())|) == Some(r.request.form.data)
              && |r.request.form.data| == |EncodeForm(response.Value())|
              && r.request.timeout == PostTimeout(postTimeout, |r.request.form.data|)
              && |response.uid.data| <= MAX_UID_SIZE && headersOk
    ensures budget.held == old(budget.held) + (if r.Prepared? then r.request.form.capacity else 0)
  {
    hide EncodeForm;
    hide ResponseFormEncodedLen;
    hide PostTimeout;
    var value := response.Value();
    FormPrecheckIsExact(value, usizeMax);
    var length := ResponseFormEncodedLen(value, usizeMax);
    if length.None? {
      return NotPrepared(FormLengthOverflow);
    }
    var encodedLength := length.value;
    var granted, seen := budget.TryReserve(encodedLength);
    if granted.None? {
      return NotPrepared(FormRefused(encodedLength, seen));
    }
    var reservation := granted.value;
    var encoded := EncodeFormReserved(value, encodedLength, reservation, spare, encoder);
    if encoded.FormFailed? {
      return NotPrepared(encoded.error);
    }
    var form := encoded.form;
    if |value.uid| > MAX_UID_SIZE {
      reservation.Drop();
      return NotPrepared(UidTooLong);
    }
    if !headersOk {
      reservation.Drop();
      return NotPrepared(BadHeader);
    }
    return Prepared(PreparedFormRequest(form, PostTimeout(postTimeout, encodedLength), reservation));
  }

  /**
   With the deployed encoder: the form parses back to status and body, and the POST is prepared exactly if the budget
   has room for the form and the headers are good.
   */
  method PrepareFormRequest(response: BudgetedResponse, budget: MemoryBudget, postTimeout: real, headersOk: bool,
                            usizeMax: nat, spare: nat)
    returns (r: Preparation)
    requires response.Valid() && response.retained.budget == budget && 0xFFFF_FFFF <= usizeMax
    requires |response.uid.data| <= MAX_UID_SIZE && |response.body.data| <= MAX_BODY_SIZE
    modifies budget
    ensures response.Valid()
    ensures var length := |EncodeForm(response.Value())|;
            var levels := FormLevels(budget, old(budget.accesses), old(budget.held), length);
            && (r.Prepared? <==> FormFits(levels, length, spare, budget.limit) && headersOk)
            && (r.NotPrepared? ==>
                  r.error == if FormFits(levels, length, spare, budget.limit) then BadHeader
                             else FormRefusal(levels, length, spare, budget.limit))
    ensures r.Prepared? ==>
              && Parse(r.request.form.data) ==
                   [(Ascii("status"), Decimal(response.status)), (Ascii("body"), response.body.data)]
              && r.request.reservation.bytes == r.request.form.capacity
                 == |EncodeForm(response.Value())| + spare
              && r.request.timeout == PostTimeout(postTimeout, |r.request.form.data|)
    ensures budget.held == old(budget.held) + (if r.Prepared? then r.request.form.capacity else 0)
  {
    hide EncodeForm;
    hide ResponseFormEncodedLen;
    hide PostTimeout;
    hide Parse;
    hide Decimal;
    hide Ascii;
    hide FormLevels;
    hide FormFits;
    hide FormRefusal;
    var value := response.Value();
    FormPrecheckIsExact(value, usizeMax);
    FormPrecheckNeverOverflows(value, usizeMax);
    ResponseFormRoundTrip(value);
    var encoder := (r: ResourceResponse, length: nat) => Some(EncodeForm(r));
    r := PrepareFormRequestWithEncoder(response, budget, postTimeout, headersOk, usizeMax, spare, encoder);
  }
}
