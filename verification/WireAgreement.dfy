/** What server and client agree on: values that survive JSON text and the schema unchanged. */
module WireAgreement {
  import opened Prelude
  import opened JsonText
  import opened JsonRoundTrip
  import opened CanonicalJson

  /** A JavaScript value after validation: a JSON tree, or something JSON cannot carry. */
  datatype Js = Tree(j: Json) | Foreign

  /** `safeParse` of a deterministic schema, transformations included. */
  type Schema = Js -> Option<Js>

  /** `assertRpcWireValueStable`: print, parse, validate again, print again, compare. */
  predicate WireStable(schema: Schema, v: Js) {
    && v.Tree?
    && var reparsed := Parse(Stringify(v.j));
       && reparsed.Some?
       && var roundTrip := schema(Tree(reparsed.value));
          roundTrip.Some? && roundTrip.value.Tree? && Stringify(roundTrip.value.j) == Stringify(v.j)
  }

  /** Stability is being a fixed point of the schema: no more is asked, and no less. */
  lemma StableIsFixedPoint(schema: Schema, v: Js)
    ensures WireStable(schema, v) <==> v.Tree? && schema(v) == Some(v)
  {
    if v.Tree? {
      ParseStringify(v.j);
      var roundTrip := schema(v);
      if roundTrip.Some? && roundTrip.value.Tree? && Stringify(roundTrip.value.j) == Stringify(v.j) {
        StringifyInjective(roundTrip.value.j, v.j);
      }
    }
  }

  /** `validateOutput`; None where the original throws. */
  function ValidateOutput(schema: Schema, output: Js): Option<Js> {
    match schema(output)
    case Some(v) => if WireStable(schema, v) then Some(v) else None
    case None => None
  }

  /** Validated output is accepted again, unchanged: by the outer validation after the handler invoker,
      and by the ledger's replay of a body that is stored as it was. */
  lemma ValidatedTwice(schema: Schema, output: Js, v: Js)
    requires ValidateOutput(schema, output) == Some(v)
    ensures v.Tree? && ValidateOutput(schema, v) == Some(v)
  {
    StableIsFixedPoint(schema, v);
  }

  // ----- replay through a column that may reorder keys -----

  /** Whether a replay of the stored form of `v` passes the second validation. */
  predicate ReplayAccepted(schema: Schema, jsonb: Json -> Json, v: Json) {
    ValidateOutput(schema, Tree(jsonb(v))).Some?
  }

  ghost predicate SameMeaning(a: Json, b: Json) {
    Meaning(a) == Meaning(b)
  }

  predicate FixedPoint(schema: Schema, j: Json) {
    schema(Tree(j)) == Some(Tree(j))
  }

  /** A schema that looks at what an object means, not at its key order. */
  ghost predicate OrderBlind(schema: Schema) {
    forall a, b :: SameMeaning(a, b) && FixedPoint(schema, a) ==>
      exists w :: schema(Tree(b)) == Some(Tree(w)) && FixedPoint(schema, w) && SameMeaning(w, a)
  }

  /** A replay passes exactly when the schema maps the stored form to one of its own fixed points. */
  lemma ReplayAcceptedExactly(schema: Schema, jsonb: Json -> Json, v: Json)
    ensures ReplayAccepted(schema, jsonb, v) <==>
            var again := schema(Tree(jsonb(v)));
            again.Some? && again.value.Tree? && schema(again.value) == Some(again.value)
  {
    var again := schema(Tree(jsonb(v)));
    if again.Some? { StableIsFixedPoint(schema, again.value); }
  }

  /** The replay of `v` through this column passes the second validation and means the same. */
  ghost predicate ReplayKeeps(schema: Schema, jsonb: Json -> Json, v: Json) {
    var again := ValidateOutput(schema, Tree(jsonb(v)));
    again.Some? && again.value.Tree? && SameMeaning(again.value.j, v)
  }

  ghost predicate KeepsMeaning(jsonb: Json -> Json) {
    forall x :: SameMeaning(x, jsonb(x))
  }

  /** What a mutation may return and the ledger may store. */
  ghost predicate Validated(schema: Schema, v: Json) {
    exists output :: ValidateOutput(schema, output) == Some(Tree(v))
  }

  /** Every replay of validated output, through every column that keeps the meaning, passes and means the
      same. */
  ghost predicate ReplaysKeep(schema: Schema) {
    forall jsonb: Json -> Json, v :: KeepsMeaning(jsonb) && Validated(schema, v) ==> ReplayKeeps(schema, jsonb, v)
  }

  lemma ValidatedExactly(schema: Schema, v: Json)
    ensures Validated(schema, v) <==> FixedPoint(schema, v)
  {
    StableIsFixedPoint(schema, Tree(v));
    if FixedPoint(schema, v) { assert ValidateOutput(schema, Tree(v)) == Some(Tree(v)); }
  }

  /** For a schema blind to key order a replay of validated output passes and means the same, wherever the
      column kept its meaning. */
  lemma ReplayKeepsMeaning(schema: Schema, jsonb: Json -> Json, v: Json)
    requires OrderBlind(schema) && Validated(schema, v) && SameMeaning(v, jsonb(v))
    ensures ReplayKeeps(schema, jsonb, v)
  {
    ValidatedExactly(schema, v);
    var w :| schema(Tree(jsonb(v))) == Some(Tree(w)) && FixedPoint(schema, w) && SameMeaning(w, v);
    StableIsFixedPoint(schema, Tree(w));
  }

  /** A column that stores `b` for `a` shows what the schema does with `b`. */
  lemma KeepsBlind(schema: Schema, a: Json, b: Json)
    requires ReplaysKeep(schema) && SameMeaning(a, b) && FixedPoint(schema, a)
    ensures exists w :: schema(Tree(b)) == Some(Tree(w)) && FixedPoint(schema, w) && SameMeaning(w, a)
  {
    var jsonb := x => if x == a then b else x;
    assert KeepsMeaning(jsonb);
    ValidatedExactly(schema, a);
    assert ReplayKeeps(schema, jsonb, a);
    var w := ValidateOutput(schema, Tree(b)).value;
    StableIsFixedPoint(schema, w);
  }

  /** When replay is safe: exactly for the schemas blind to key order. */
  lemma ReplaysKeepExactly(schema: Schema)
    ensures ReplaysKeep(schema) <==> OrderBlind(schema)
  {
    if OrderBlind(schema) {
      forall jsonb: Json -> Json, v | KeepsMeaning(jsonb) && Validated(schema, v) ensures ReplayKeeps(schema, jsonb, v) {
        assert SameMeaning(v, jsonb(v));
        ReplayKeepsMeaning(schema, jsonb, v);
      }
    }
    if ReplaysKeep(schema) {
      forall a, b | SameMeaning(a, b) && FixedPoint(schema, a)
        ensures exists w :: schema(Tree(b)) == Some(Tree(w)) && FixedPoint(schema, w) && SameMeaning(w, a)
      {
        KeepsBlind(schema, a, b);
      }
    }
  }

  const A: Text := [0x61]
  const B: Text := [0x62]

  /** Accepts an object only when its first key is "b". */
  function FirstKeyIsB(v: Js): Option<Js> {
    if v.Tree? && v.j.Object? && |v.j.members| > 0 && v.j.members[0].key == B then Some(v) else None
  }

  const BA: Json := Object([Member(B, Null), Member(A, Null)])

  lemma CanonicalOfBA()
    ensures Canonical(BA).Object? && |Canonical(BA).members| > 0 && Canonical(BA).members[0].key == A
  {
    var ks := Keys(BA.members);
    assert ks == [B, A];
    SortedBA();
    SameElements(ks);
    CanonicalMembersAt(BA, SortKeys(ks), 0);
  }

  lemma SortedBA()
    ensures SortKeys([B, A]) == [A, B]
  {
    assert [B, A][1..] == [A] && [A][1..] == [];
    assert SortKeys([A]) == [A];
  }

  /** Without that, a committed mutation can fail its own replay: output with keys b, a passes, and
      its stored form with keys a, b does not, although both mean the same. */
  lemma ReplayCanFail()
    ensures ValidateOutput(FirstKeyIsB, Tree(BA)) == Some(Tree(BA))
    ensures SameMeaning(BA, Canonical(BA)) && !ReplayAccepted(FirstKeyIsB, Canonical, BA)
  {
    StableIsFixedPoint(FirstKeyIsB, Tree(BA));
    CanonicalMeaning(BA);
    CanonicalOfBA();
  }

  // ----- requests -----

  /** The client sends the text of its validated input. */
  function ClientInput(schema: Schema, input: Js): Option<Text> {
    match schema(input)
    case Some(v) => if WireStable(schema, v) then Some(Stringify(v.j)) else None
    case None => None
  }

  /** The server validates the parsed body and checks it for stability. */
  function ServerInput(schema: Schema, body: Js): Option<Js> {
    match schema(body)
    case Some(v) => if WireStable(schema, v) then Some(v) else None
    case None => None
  }

  /** The server accepts, as the same value, every input the client accepted. */
  lemma InputAgreement(schema: Schema, input: Js, text: Text)
    requires ClientInput(schema, input) == Some(text)
    ensures Parse(text).Some?
    ensures ServerInput(schema, Tree(Parse(text).value)) == Some(Tree(Parse(text).value)) == schema(input)
  {
    var v := schema(input).value;
    StableIsFixedPoint(schema, v);
    ParseStringify(v.j);
  }

  // ----- response envelopes -----

  function Ascii(s: string): Text {
    seq(|s|, i requires 0 <= i < |s| => s[i] as int % 0x10000)
  }

  datatype Response =
    | Success(data: Json, requestId: Text, servedAt: Text)
    | Failure(code: Text, message: Text, retryable: bool, details: Option<Json>, requestId: Text)

  function ErrorMembers(r: Response): seq<Member>
    requires r.Failure?
  {
    [Member(Ascii("code"), String(r.code))]
    + (if r.details.Some? then [Member(Ascii("details"), r.details.value)] else [])
    + [Member(Ascii("message"), String(r.message)), Member(Ascii("retryable"), Bool(r.retryable))]
  }

  function EnvelopeOf(r: Response): Json {
    match r
    case Success(data, requestId, servedAt) =>
      Object([Member(Ascii("ok"), Bool(true)), Member(Ascii("data"), data),
              Member(Ascii("meta"), Object([Member(Ascii("requestId"), String(requestId)),
                                            Member(Ascii("servedAt"), String(servedAt))]))])
    case Failure(_, _, _, _, requestId) =>
      Object([Member(Ascii("ok"), Bool(false)), Member(Ascii("error"), Object(ErrorMembers(r))),
              Member(Ascii("meta"), Object([Member(Ascii("requestId"), String(requestId))]))])
  }

  /** Property access on a parsed object. */
  function Get(j: Json, key: Text): Option<Json> {
    if j.Object? && key in Keys(j.members) then Some(j.members[IndexOf(Keys(j.members), key)].value) else None
  }

  function GetText(j: Json, key: Text): Option<Text> {
    match Get(j, key) case Some(String(s)) => Some(s) case _ => None
  }

  function GetBool(j: Json, key: Text): Option<bool> {
    match Get(j, key) case Some(Bool(b)) => Some(b) case _ => None
  }

  /** `createRpcSuccessResponseSchema(outputSchema).safeParse`: unknown keys are dropped. */
  function ReadSuccess(schema: Schema, isDatetime: Text -> bool, j: Json): Option<(Js, Text, Text)> {
    if GetBool(j, Ascii("ok")) != Some(true) then None
    else
      match (Get(j, Ascii("data")), Get(j, Ascii("meta")))
      case (Some(data), Some(meta)) =>
        (match (schema(Tree(data)), GetText(meta, Ascii("requestId")), GetText(meta, Ascii("servedAt")))
         case (Some(v), Some(id), Some(at)) => if |id| > 0 && isDatetime(at) then Some((v, id, at)) else None
         case _ => None)
      case _ => None
  }

  /** `rpcErrorResponseSchema.safeParse` */
  function ReadFailure(isCode: Text -> bool, j: Json): Option<Response> {
    if GetBool(j, Ascii("ok")) != Some(false) then None
    else
      match (Get(j, Ascii("error")), Get(j, Ascii("meta")))
      case (Some(error), Some(meta)) =>
        (match (GetText(error, Ascii("code")), GetText(error, Ascii("message")), GetBool(error, Ascii("retryable")),
                GetText(meta, Ascii("requestId")))
         case (Some(code), Some(message), Some(retryable), Some(id)) =>
           if isCode(code) && |id| > 0 then Some(Failure(code, message, retryable, Get(error, Ascii("details")), id)) else None
         case _ => None)
      case _ => None
  }

  datatype CallResult =
    | Data(value: Js, requestId: Text)
    | ServerError(code: Text, message: Text, retryable: bool, details: Option<Json>, requestId: Text)
    | InvalidResponse(retryable: bool)

  /** `callRpcProcedure` from the response on. */
  function ClientReads(schema: Schema, isDatetime: Text -> bool, isCode: Text -> bool, status: int, text: Text): CallResult {
    var payload := match Parse(text) case Some(j) => j case None => Null;
    if !(200 <= status < 300) then
      match ReadFailure(isCode, payload)
      case Some(Failure(code, message, retryable, details, id)) => ServerError(code, message, retryable, details, id)
      case _ => InvalidResponse(status >= 500)
    else
      match ReadSuccess(schema, isDatetime, payload)
      case Some((v, id, _)) => if WireStable(schema, v) then Data(v, id) else InvalidResponse(false)
      case None => InvalidResponse(false)
  }

  /** What the client takes for data is data: a successful status, an envelope that says so, and a value the
      schema accepts and leaves as it is; what it takes for the server's error says that it is one; and it
      offers a retry of anything else exactly after a server error. */
  lemma ClientVerdicts(schema: Schema, isDatetime: Text -> bool, isCode: Text -> bool, status: int, text: Text)
    ensures match ClientReads(schema, isDatetime, isCode, status, text)
            case Data(v, id) =>
              && 200 <= status < 300 && v.Tree? && schema(v) == Some(v) && Parse(text).Some?
              && var j := Parse(text).value;
                 && Get(j, Ascii("ok")) == Some(Bool(true)) && Get(j, Ascii("data")).Some?
                 && schema(Tree(Get(j, Ascii("data")).value)) == Some(v)
                 && id != [] && Get(j, Ascii("meta")).Some? && Get(Get(j, Ascii("meta")).value, Ascii("requestId")) == Some(String(id))
            case ServerError(code, message, retryable, details, id) =>
              && !(200 <= status < 300) && isCode(code) && Parse(text).Some?
              && var j := Parse(text).value;
                 && Get(j, Ascii("ok")) == Some(Bool(false)) && Get(j, Ascii("error")).Some?
                 && Get(Get(j, Ascii("error")).value, Ascii("code")) == Some(String(code))
                 && Get(Get(j, Ascii("error")).value, Ascii("message")) == Some(String(message))
                 && Get(Get(j, Ascii("error")).value, Ascii("retryable")) == Some(Bool(retryable))
                 && Get(Get(j, Ascii("error")).value, Ascii("details")) == details
            case InvalidResponse(retryable) => retryable <==> status >= 500
  {
    match ClientReads(schema, isDatetime, isCode, status, text)
    case Data(v, _) => StableIsFixedPoint(schema, v);
    case _ =>
  }

  lemma AsciiNames()
    ensures Distinct([Ascii("ok"), Ascii("data"), Ascii("meta"), Ascii("error")])
    ensures Distinct([Ascii("requestId"), Ascii("servedAt")])
    ensures Distinct([Ascii("code"), Ascii("details"), Ascii("message"), Ascii("retryable")])
  {
    assert |Ascii("ok")| == 2 && |Ascii("data")| == 4 && |Ascii("error")| == 5;
    assert Ascii("data")[0] == 0x64 && Ascii("meta")[0] == 0x6D && |Ascii("meta")| == 4;
    assert |Ascii("requestId")| == 9 && |Ascii("servedAt")| == 8;
    assert |Ascii("code")| == 4 && |Ascii("details")| == 7 && |Ascii("retryable")| == 9;
    assert |Ascii("message")| == 7 && Ascii("message")[0] == 0x6D && Ascii("details")[0] == 0x64;
  }

  lemma GetAt(ms: seq<Member>, i: nat)
    requires i < |ms| && forall h :: 0 <= h < i ==> ms[h].key != ms[i].key
    ensures Get(Object(ms), ms[i].key) == Some(ms[i].value)
  {
    assert Keys(ms)[i] == ms[i].key;
  }

  /** Every success the server sends reaches the client as the same data. */
  lemma SuccessAgreement(schema: Schema, isDatetime: Text -> bool, isCode: Text -> bool, output: Js, v: Json, requestId: Text, servedAt: Text)
    requires ValidateOutput(schema, output) == Some(Tree(v))
    requires |requestId| > 0 && isDatetime(servedAt)
    ensures ClientReads(schema, isDatetime, isCode, 200, Stringify(EnvelopeOf(Success(v, requestId, servedAt)))) == Data(Tree(v), requestId)
  {
    ParseStringify(EnvelopeOf(Success(v, requestId, servedAt)));
    StableIsFixedPoint(schema, Tree(v));
    SuccessFields(v, requestId, servedAt);
  }

  lemma SuccessFields(v: Json, requestId: Text, servedAt: Text)
    ensures var j := EnvelopeOf(Success(v, requestId, servedAt));
            && GetBool(j, Ascii("ok")) == Some(true) && Get(j, Ascii("data")) == Some(v) && Get(j, Ascii("meta")).Some?
            && GetText(Get(j, Ascii("meta")).value, Ascii("requestId")) == Some(requestId)
            && GetText(Get(j, Ascii("meta")).value, Ascii("servedAt")) == Some(servedAt)
  {
    AsciiNames();
    var ms := EnvelopeOf(Success(v, requestId, servedAt)).members;
    var names := [Ascii("ok"), Ascii("data"), Ascii("meta"), Ascii("error")];
    assert names[0] != names[1] && names[0] != names[2] && names[1] != names[2];
    GetAt(ms, 0);
    GetAt(ms, 1);
    GetAt(ms, 2);
    var meta := ms[2].value.members;
    assert [Ascii("requestId"), Ascii("servedAt")][0] != [Ascii("requestId"), Ascii("servedAt")][1];
    GetAt(meta, 0);
    GetAt(meta, 1);
  }

  lemma ErrorFields(r: Response, error: Json)
    requires r.Failure? && error == Object(ErrorMembers(r))
    ensures Get(error, Ascii("code")) == Some(String(r.code)) && Get(error, Ascii("message")) == Some(String(r.message))
    ensures Get(error, Ascii("retryable")) == Some(Bool(r.retryable)) && Get(error, Ascii("details")) == r.details
  {
    AsciiNames();
    var names := [Ascii("code"), Ascii("details"), Ascii("message"), Ascii("retryable")];
    assert names[0] != names[1] && names[0] != names[2] && names[0] != names[3];
    assert names[1] != names[2] && names[1] != names[3] && names[2] != names[3];
    var ms := error.members;
    GetAt(ms, 0);
    GetAt(ms, 1);
    GetAt(ms, 2);
    if r.details.Some? {
      GetAt(ms, 3);
    } else {
      forall i | 0 <= i < |ms| ensures Keys(ms)[i] != Ascii("details") {}
    }
  }

  lemma FailureFields(r: Response)
    requires r.Failure?
    ensures var j := EnvelopeOf(r);
            && Get(j, Ascii("ok")) == Some(Bool(false))
            && Get(j, Ascii("error")) == Some(Object(ErrorMembers(r)))
            && Get(j, Ascii("meta")).Some? && Get(Get(j, Ascii("meta")).value, Ascii("requestId")) == Some(String(r.requestId))
  {
    AsciiNames();
    var names := [Ascii("ok"), Ascii("data"), Ascii("meta"), Ascii("error")];
    assert names[0] != names[3] && names[0] != names[2] && names[3] != names[2];
    var ms := EnvelopeOf(r).members;
    GetAt(ms, 0);
    GetAt(ms, 1);
    GetAt(ms, 2);
    GetAt(ms[2].value.members, 0);
  }

  /** Every error the server reports reaches the client with its code, message, details and
      retryability. */
  lemma FailureAgreement(schema: Schema, isDatetime: Text -> bool, isCode: Text -> bool, r: Response, status: int)
    requires r.Failure? && isCode(r.code) && |r.requestId| > 0 && !(200 <= status < 300)
    ensures ClientReads(schema, isDatetime, isCode, status, Stringify(EnvelopeOf(r)))
            == ServerError(r.code, r.message, r.retryable, r.details, r.requestId)
  {
    ParseStringify(EnvelopeOf(r));
    FailureIsRead(isCode, r);
  }

  lemma FailureIsRead(isCode: Text -> bool, r: Response)
    requires r.Failure? && isCode(r.code) && |r.requestId| > 0
    ensures ReadFailure(isCode, EnvelopeOf(r)) == Some(r)
  {
    FailureFields(r);
    ErrorFields(r, Object(ErrorMembers(r)));
  }
}
