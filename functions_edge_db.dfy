/**
 * The older edge database client of the edge functions: it validates a data domain (referring
 * area type and time to live), and `set` runs SET on the local Redis only, answering
 * MISSING_IMPLEMENTATION where the write should have been propagated. The Redis reply is a
 * parameter.
 */
module EdgeFunctionsDb {
  import opened Wrappers
  import opened JsValues
  import opened Hierarchy
  import opened FrameworkEdgeDb

  const ReferringAreaTypeNotSetMessage: string := "Field referringAreaType not set."
  const TtlNotSetMessage: string := "Field ttl not set."
  const MissingImplementation: string := "MISSING_IMPLEMENTATION"

  /** The checks of the constructor, in order; a falsy field (the empty string, 0) is "not set". */
  function EdgeArgumentError(ref: JsValue, ttl: JsValue): Option<JsError> {
    if !Truthy(ref) then Some(Thrown(ReferringAreaTypeNotSetMessage))
    else if !ref.Str? then Some(Thrown(NotAStringMessage))
    else if !Truthy(ttl) then Some(Thrown(TtlNotSetMessage))
    else if !ttl.Int? then Some(Thrown(NotAnIntegerMessage))
    else if ttl.i > TtlMaxValue then Some(Thrown(TtlTooBigMessage))
    else if ttl.i < TtlMinValue then Some(Thrown(TtlTooSmallMessage))
    else None
  }

  /**
   * The constructor as written: once every check passes, the validity check reads
   * `referringAreaTypeLevel`, a variable that was never declared (the level lives in
   * `this.referringAreaTypeLevel`), which throws ReferenceError in strict mode. No data domain
   * ever yields a client.
   */
  function ConstructAsWritten(infra: Infrastructure, ref: JsValue, ttl: JsValue): Result<EdgeClient, JsError> {
    var err := EdgeArgumentError(ref, ttl);
    if err.Some? then Err(err.value) else Err(ReferenceError)
  }

  /** A validated data domain: the referring area type, the time to live and the referring level. */
  datatype EdgeClient = EdgeClient(referringAreaType: string, ttl: int, referringAreaTypeLevel: int)

  /** The constructor as intended: the level check reads the level the constructor computed. */
  function Construct(infra: Infrastructure, ref: JsValue, ttl: JsValue): Result<EdgeClient, JsError> {
    var possible := PossibleAreaTypes(infra);
    var refLevel := IndexOf(possible, ref);
    var err := EdgeArgumentError(ref, ttl);
    if err.Some? then Err(err.value)
    else if refLevel == -1 then Err(Thrown(InvalidAreaTypeMessage(possible)))
    else Ok(EdgeClient(ref.s, ttl.i, refLevel))
  }

  /**
   * set: the SET arguments (shared with the main functions' client) and the answer for the Redis
   * `reply`: MISSING_IMPLEMENTATION for a successful write outside the location level, the reply
   * itself otherwise.
   */
  function SetOutcome(client: EdgeClient, key: JsValue, data: JsValue, nx: JsValue, xx: JsValue, reply: JsValue)
    : Result<(seq<JsValue>, JsValue), JsError>
  {
    match SetArguments(key, data, client.ttl, nx, xx)
    case Err(e) => Err(e)
    case Ok(args) =>
      Ok((args, if reply == Str("OK") && client.referringAreaType != "location" then Str(MissingImplementation) else reply))
  }

  /** The outcome of set, from the flag arguments pushed and the answer chosen for the reply. */
  lemma SetOutcomeOf(client: EdgeClient, key: JsValue, data: JsValue, nx: JsValue, xx: JsValue, reply: JsValue,
                     nxFlag: seq<JsValue>, xxFlag: seq<JsValue>, answer: JsValue)
    requires !(nx == Bool(true) && xx == Bool(true))
    requires nxFlag == if nx == Bool(true) then [Str("NX")] else []
    requires xxFlag == if xx == Bool(true) then [Str("XX")] else []
    requires answer == if reply == Str("OK") && client.referringAreaType != "location" then Str(MissingImplementation) else reply
    ensures SetOutcome(client, key, data, nx, xx, reply) == Ok(([key, data, Str("PX"), Int(client.ttl)] + nxFlag + xxFlag, answer))
  {
  }

  /**
   * The client object: the three fields the constructor assigns. Objects are made only by
   * `WithDataDomain`, once every check has passed.
   */
  class EdgeDbClientWithDataDomain {
    const referringAreaType: string
    const ttl: int
    const referringAreaTypeLevel: int

    constructor (referringAreaType: string, ttl: int, referringAreaTypeLevel: int)
      ensures this.referringAreaType == referringAreaType && this.ttl == ttl
      ensures this.referringAreaTypeLevel == referringAreaTypeLevel
    {
      this.referringAreaType := referringAreaType;
      this.ttl := ttl;
      this.referringAreaTypeLevel := referringAreaTypeLevel;
    }

    function Value(): EdgeClient
      reads this
    {
      EdgeClient(referringAreaType, ttl, referringAreaTypeLevel)
    }

    /** set: the arguments pushed one by one, then the answer for the local Redis `reply`. */
    method Set(key: JsValue, data: JsValue, nx: JsValue, xx: JsValue, reply: JsValue)
      returns (r: Result<(seq<JsValue>, JsValue), JsError>)
      ensures r == SetOutcome(Value(), key, data, nx, xx, reply)
    {
      if nx == Bool(true) && xx == Bool(true) {
        return Err(Thrown(BothFlagsMessage));
      }
      var nxFlag: seq<JsValue> := [];
      if nx == Bool(true) {
        nxFlag := [Str("NX")];
      }
      var xxFlag: seq<JsValue> := [];
      if xx == Bool(true) {
        xxFlag := [Str("XX")];
      }
      var args := [key, data, Str("PX"), Int(ttl)] + nxFlag + xxFlag;
      var answer := reply;
      if reply == Str("OK") && referringAreaType != "location" {
        answer := Str(MissingImplementation);
      }
      SetOutcomeOf(Value(), key, data, nx, xx, reply, nxFlag, xxFlag, answer);
      r := Ok((args, answer));
    }
  }

  /**
   * withDataDomain with the level check as intended: the checks in order, each throwing its
   * message, and a client carrying exactly what `Construct` describes.
   */
  method WithDataDomain(infra: Infrastructure, ref: JsValue, ttl: JsValue)
    returns (r: Result<EdgeDbClientWithDataDomain, JsError>)
    ensures match Construct(infra, ref, ttl)
      case Err(e) => r == Err(e)
      case Ok(client) => r.Ok? && fresh(r.value) && r.value.Value() == client
  {
    var possible := PossibleAreaTypes(infra);
    var referringAreaTypeLevel := IndexOf(possible, ref);
    if !Truthy(ref) {
      return Err(Thrown(ReferringAreaTypeNotSetMessage));
    }
    if !ref.Str? {
      return Err(Thrown(NotAStringMessage));
    }
    if !Truthy(ttl) {
      return Err(Thrown(TtlNotSetMessage));
    }
    if !ttl.Int? {
      return Err(Thrown(NotAnIntegerMessage));
    }
    if ttl.i > TtlMaxValue {
      return Err(Thrown(TtlTooBigMessage));
    }
    if ttl.i < TtlMinValue {
      return Err(Thrown(TtlTooSmallMessage));
    }
    if referringAreaTypeLevel == -1 {
      return Err(Thrown(InvalidAreaTypeMessage(possible)));
    }
    var client := new EdgeDbClientWithDataDomain(ref.s, ttl.i, referringAreaTypeLevel);
    return Ok(client);
  }

  // ---------------------------------------------------------------------------------------------
  // Properties.
  // ---------------------------------------------------------------------------------------------

  /**
   * The constructor's checks throw these messages, in this order; 0 and "" count as missing
   * rather than as too small or invalid.
   */
  lemma EdgeChecks(ref: JsValue, ttl: JsValue)
    ensures var e := EdgeArgumentError(ref, ttl);
      && (ref == Str("") || ref.Undefined? || ref.Null? ==> e == Some(Thrown(ReferringAreaTypeNotSetMessage)))
      && (ref == Bool(true) || ref.Arr? || ref.Obj? ==> e == Some(Thrown(NotAStringMessage)))
      && (ref.Str? && ref.s != "" && (ttl == Int(0) || ttl.Undefined? || ttl.Null?) ==> e == Some(Thrown(TtlNotSetMessage)))
      && (ref.Str? && ref.s != "" && ttl.Int? && ttl.i > TtlMaxValue ==> e == Some(Thrown(TtlTooBigMessage)))
      && (ref.Str? && ref.s != "" && ttl.Int? && ttl.i != 0 && ttl.i < TtlMinValue ==> e == Some(Thrown(TtlTooSmallMessage)))
      && (e.None? <==> ref.Str? && ref.s != "" && ttl.Int? && TtlMinValue <= ttl.i <= TtlMaxValue)
  {
  }

  /**
   * For a non-empty string type and a non-zero integer time to live, both clients refuse the
   * same inputs with the same messages (a data domain at the deployment's own level needs no
   * intermediate-saving flag in the main functions' client).
   */
  lemma EdgeChecksAgreeWithMain(ref: JsValue, ttl: JsValue, saveAlso: JsValue)
    requires ref.Str? && ref.s != "" && ttl.Int? && ttl.i != 0
    ensures EdgeArgumentError(ref, ttl) == ArgumentError(ref, ttl, saveAlso, ref)
  {
  }

  /** As written, the constructor throws for every input, ReferenceError for every valid one. */
  lemma ConstructAsWrittenNeverSucceeds(infra: Infrastructure, ref: JsValue, ttl: JsValue)
    ensures ConstructAsWritten(infra, ref, ttl).Err?
    ensures EdgeArgumentError(ref, ttl).None? ==> ConstructAsWritten(infra, ref, ttl) == Err(ReferenceError)
  {
  }

  /** The concrete data domain of a country-level deployment, which as written throws ReferenceError. */
  lemma ConstructAsWrittenExample()
    ensures var infra := Infrastructure([Str("continent"), Str("country")], Obj([]));
      && ConstructAsWritten(infra, Str("country"), Int(60000)) == Err(ReferenceError)
      && Construct(infra, Str("country"), Int(60000)) == Ok(EdgeClient("country", 60000, 1))
  {
    var infra := Infrastructure([Str("continent"), Str("country")], Obj([]));
    assert PossibleAreaTypes(infra) == [Str("continent"), Str("country"), Str("location")];
    assert IndexOf(PossibleAreaTypes(infra), Str("country")) == 1;
  }

  /**
   * The intended constructor accepts exactly the valid data domains whose type is an area type or
   * "location", and then records the index of that type.
   */
  lemma ConstructSpec(infra: Infrastructure, ref: JsValue, ttl: JsValue)
    ensures var r := Construct(infra, ref, ttl);
      && (r.Ok? <==> EdgeArgumentError(ref, ttl).None? && ref in PossibleAreaTypes(infra))
      && (EdgeArgumentError(ref, ttl).Some? ==> r == Err(EdgeArgumentError(ref, ttl).value))
      && (EdgeArgumentError(ref, ttl).None? && ref !in PossibleAreaTypes(infra) ==>
            r == Err(Thrown(InvalidAreaTypeMessage(PossibleAreaTypes(infra)))))
      && (r.Ok? ==> Str(r.value.referringAreaType) == ref && Int(r.value.ttl) == ttl
                    && 0 <= r.value.referringAreaTypeLevel <= |infra.areaTypes|
                    && PossibleAreaTypes(infra)[r.value.referringAreaTypeLevel] == ref)
      && (r.Ok? && ref == LocationType && LocationType !in infra.areaTypes ==>
            r.value.referringAreaTypeLevel == |infra.areaTypes|)
  {
  }

  /**
   * set writes the same SET arguments as the main functions' client and answers
   * MISSING_IMPLEMENTATION exactly for an OK reply outside the location level.
   */
  lemma SetSpec(client: EdgeClient, key: JsValue, data: JsValue, nx: JsValue, xx: JsValue, reply: JsValue)
    ensures var r := SetOutcome(client, key, data, nx, xx, reply);
      && (r.Err? <==> nx == Bool(true) && xx == Bool(true))
      && (r.Ok? ==> r.value.0 == SetArguments(key, data, client.ttl, nx, xx).value
                    && r.value.0[..4] == [key, data, Str("PX"), Int(client.ttl)])
      && (r.Ok? ==> (r.value.1 == Str(MissingImplementation) <==>
                       (reply == Str("OK") && client.referringAreaType != "location") || reply == Str(MissingImplementation)))
      && (r.Ok? && !(reply == Str("OK") && client.referringAreaType != "location") ==> r.value.1 == reply)
  {
    SetArgumentsShape(key, data, client.ttl, nx, xx);
  }
}
