/**
 * The edge database client of the framework's main functions.
 *
 * A client is built for a data domain (the referring area type, a time to live and whether to
 * save also in the intermediate levels). Its constructor validates the domain, finds the levels
 * of the deployment and of the referring area type, and decides where writes go: only to the
 * local Redis, to the single location of the referring area, or locally and to every location
 * from the referring level down to the own level. Redis and HTTP calls are returned as `Write`
 * effects; the environment (infrastructure, own location id, deployment area type) and the
 * clock are parameters.
 */
module FrameworkEdgeDb {
  import opened Wrappers
  import opened JsValues
  import opened Hierarchy
  import opened MainOnBoardParser

  const TtlMaxValue: int := 365 * 24 * 60 * 60 * 1000
  const TtlMinValue: int := 100

  const NotAStringMessage: string := "Field referringAreaType is not a string."
  const NotAnIntegerMessage: string := "Field ttl is not an integer."
  /** The bound messages spell out TtlMaxValue and TtlMinValue in decimal. */
  const TtlTooBigMessage: string := "Field ttl is too big. It must be lower than 31536000000."
  const TtlTooSmallMessage: string := "Field ttl is too small. It must be bigger than 100."
  const SaveAlsoMessage: string := "Field saveAlsoInIntermediateLevels must be specified and must be a boolean."
  const BothFlagsMessage: string :=
    "Only one option between onlySetIfKeyDoesNotAlreadyExist and onlySetIfKeyAlreadyExist can be enabled."
  const UnrecognizedSavingTypeMessage: string := "Unrecognized savingType"
  const UnrecognizedCommandMessage: string := "Command not recognized"
  const GatewayKey: string := "openfaas_gateway"

  function InvalidAreaTypeMessage(possible: seq<JsValue>): string {
    "Field referringAreaType is not a valid area type identifier. Valid identifiers for the infrastructure are: "
    + JsString(Arr(possible, [])) + "."
  }

  /** `Unset` is the null the constructor starts from. */
  datatype SavingType = Unset | OnlyLocal | SingleRemote | SaveAlsoInIntermediateLevels

  /** What a successful construction settles: both levels, the saving type and the remote locations. */
  datatype Routing = Routing(ownLevel: int, refLevel: int, savingType: SavingType, locations: seq<JsValue>)

  /** A Redis command run on the local instance, or posted to the data receiver behind a gateway. */
  datatype Write = Local(command: string, args: seq<JsValue>) | Remote(gateway: JsValue, command: string, args: seq<JsValue>)

  // ---------------------------------------------------------------------------------------------
  // Construction.
  // ---------------------------------------------------------------------------------------------

  /** The first failing check of the constructor, before the infrastructure is read. */
  function ArgumentError(ref: JsValue, ttl: JsValue, saveAlso: JsValue, inEvery: JsValue): Option<JsError> {
    if !ref.Str? then Some(Thrown(NotAStringMessage))
    else if !ttl.Int? then Some(Thrown(NotAnIntegerMessage))
    else if ttl.i > TtlMaxValue then Some(Thrown(TtlTooBigMessage))
    else if ttl.i < TtlMinValue then Some(Thrown(TtlTooSmallMessage))
    else if ref != LocationType && inEvery != ref && !saveAlso.Bool? then Some(Thrown(SaveAlsoMessage))
    else None
  }

  /** The object of the referring area at `level`; reading `location_id` of null throws. */
  function LevelObject(infra: Infrastructure, own: string, level: int): Result<JsValue, JsError> {
    match ReferringAreaObject(infra, own, level, MainResolved)
    case Err(e) => Err(e)
    case Ok(None) => Err(TypeError)
    case Ok(Some(o)) => Ok(o)
  }

  predicate IsOwn(o: JsValue, own: string) {
    Get(o, LocationIdKey) == Str(own)
  }

  /** The saving locations gathered for the levels `from` up to (excluding) `upTo`, in level order. */
  function IntermediateUpTo(infra: Infrastructure, own: string, from: int, upTo: int): Result<seq<JsValue>, JsError>
    decreases upTo - from
  {
    if upTo <= from then Ok([])
    else
      match IntermediateUpTo(infra, own, from, upTo - 1)
      case Err(e) => Err(e)
      case Ok(xs) =>
        match LevelObject(infra, own, upTo - 1)
        case Err(e) => Err(e)
        case Ok(o) => Ok(if IsOwn(o, own) then xs else xs + [o])
  }

  /** The outcome of the constructor for a data domain in a given environment. */
  function RoutingOf(infra: Infrastructure, own: string, inEvery: JsValue,
                     ref: JsValue, ttl: JsValue, saveAlso: JsValue): Result<Routing, JsError>
  {
    var err := ArgumentError(ref, ttl, saveAlso, inEvery);
    if err.Some? then Err(err.value)
    else
      var possible := PossibleAreaTypes(infra);
      var refLevel := IndexOf(possible, ref);
      if refLevel == -1 then Err(Thrown(InvalidAreaTypeMessage(possible)))
      else Decision(infra, own, IndexOf(possible, inEvery), refLevel, ref == LocationType || inEvery == ref, saveAlso)
  }

  /** RoutingOf once the argument checks pass. */
  lemma RoutingOfDecision(infra: Infrastructure, own: string, inEvery: JsValue, ref: JsValue, ttl: JsValue, saveAlso: JsValue)
    requires ArgumentError(ref, ttl, saveAlso, inEvery).None?
    ensures var possible := PossibleAreaTypes(infra);
      RoutingOf(infra, own, inEvery, ref, ttl, saveAlso)
      == if IndexOf(possible, ref) == -1 then Err(Thrown(InvalidAreaTypeMessage(possible)))
         else Decision(infra, own, IndexOf(possible, inEvery), IndexOf(possible, ref), ref == LocationType || inEvery == ref, saveAlso)
  {
  }

  /** The saving decision once both levels are known; `local` when no lookup is needed. */
  function Decision(infra: Infrastructure, own: string, ownLevel: int, refLevel: int,
                    local: bool, saveAlso: JsValue): (r: Result<Routing, JsError>)
    ensures r.Ok? ==> r.value.ownLevel == ownLevel && r.value.refLevel == refLevel
  {
    if local then Ok(Routing(ownLevel, refLevel, OnlyLocal, []))
    else if Truthy(saveAlso) then
      match IntermediateUpTo(infra, own, refLevel, ownLevel + 1)
      case Err(e) => Err(e)
      case Ok(xs) => Ok(Routing(ownLevel, refLevel, SaveAlsoInIntermediateLevels, xs))
    else
      match LevelObject(infra, own, refLevel)
      case Err(e) => Err(e)
      case Ok(o) =>
        if IsOwn(o, own) then Ok(Routing(ownLevel, refLevel, OnlyLocal, []))
        else Ok(Routing(ownLevel, refLevel, SingleRemote, [o]))
  }

  class EdgeDbClient {
    const infrastructure: Infrastructure
    const ownLocationId: string
    const referringAreaType: string
    const ttl: int
    const saveAlsoInIntermediateLevels: JsValue
    var ownAreaTypeLevel: int
    var referringAreaTypeLevel: int
    var savingLocationsList: seq<JsValue>
    var savingType: SavingType

    /**
     * The field initialisation of the constructor and the two levels: the indices of the
     * deployment's area type and of the referring one among the area types followed by "location".
     */
    constructor (infra: Infrastructure, own: string, inEvery: JsValue, ref: string, ttl: int, saveAlso: JsValue)
      ensures infrastructure == infra && ownLocationId == own && referringAreaType == ref
      ensures this.ttl == ttl && saveAlsoInIntermediateLevels == saveAlso
      ensures ownAreaTypeLevel == IndexOf(PossibleAreaTypes(infra), inEvery)
      ensures referringAreaTypeLevel == IndexOf(PossibleAreaTypes(infra), Str(ref))
      ensures savingLocationsList == [] && savingType == Unset
    {
      infrastructure := infra;
      ownLocationId := own;
      referringAreaType := ref;
      this.ttl := ttl;
      saveAlsoInIntermediateLevels := saveAlso;
      savingLocationsList := [];
      savingType := Unset;
      var possible := PossibleAreaTypes(infra);
      ownAreaTypeLevel := IndexOf(possible, inEvery);
      referringAreaTypeLevel := IndexOf(possible, Str(ref));
    }

    function Routed(): Routing
      reads this
    {
      Routing(ownAreaTypeLevel, referringAreaTypeLevel, savingType, savingLocationsList)
    }

    /** The saving decision of the constructor, once both levels are set; `local` needs no lookup. */
    method DecideSaving(local: bool) returns (error: Option<JsError>)
      requires savingType == Unset && savingLocationsList == []
      modifies this
      ensures var d := Decision(infrastructure, ownLocationId, ownAreaTypeLevel, referringAreaTypeLevel,
                                local, saveAlsoInIntermediateLevels);
        && (error.Some? <==> d.Err?)
        && (d.Err? ==> error == Some(d.error))
        && (d.Ok? ==> d.value == Routed())
      ensures ownAreaTypeLevel == old(ownAreaTypeLevel) && referringAreaTypeLevel == old(referringAreaTypeLevel)
    {
      ghost var decision := Decision(infrastructure, ownLocationId, ownAreaTypeLevel, referringAreaTypeLevel,
                                     local, saveAlsoInIntermediateLevels);
      if local {
        savingType := OnlyLocal;
        return None;
      }
      if Truthy(saveAlsoInIntermediateLevels) {
        savingType := SaveAlsoInIntermediateLevels;
        var locations := IntermediateLocations(infrastructure, ownLocationId, referringAreaTypeLevel, ownAreaTypeLevel);
        if locations.Err? {
          return Some(locations.error);
        }
        savingLocationsList := locations.value;
        return None;
      }
      var found := LocationObjectOfReferringArea(infrastructure, ownLocationId, referringAreaTypeLevel, MainResolved);
      assert LevelObject(infrastructure, ownLocationId, referringAreaTypeLevel)
        == (if found.Err? then Err(found.error) else if found.value.None? then Err(TypeError) else Ok(found.value.value));
      if found.Err? {
        return Some(found.error);
      }
      if found.value.None? {
        return Some(TypeError);
      }
      var locationObject := found.value.value;
      if Get(locationObject, LocationIdKey) == Str(ownLocationId) {
        savingType := OnlyLocal;
      } else {
        savingLocationsList := savingLocationsList + [locationObject];
        savingType := SingleRemote;
      }
      return None;
    }

    /** performWrite: the writes one command fans out to, by saving type. */
    method PerformWrite(command: string, args: seq<JsValue>) returns (r: Result<seq<Write>, JsError>)
      ensures r == WritesFor(savingType, savingLocationsList, command, args)
    {
      match savingType {
        case OnlyLocal =>
          return Ok([Local(command, args)]);
        case SingleRemote =>
          if savingLocationsList == [] {
            return Err(TypeError);
          }
          var gateway := ReadProp(savingLocationsList[0], GatewayKey);
          if gateway.Err? {
            return Err(gateway.error);
          }
          return Ok([Remote(gateway.value, command, args)]);
        case SaveAlsoInIntermediateLevels =>
          var writes := [Local(command, args)];
          var i := 0;
          assert savingLocationsList[..i] == [] && writes[1..] == [];
          while i < |savingLocationsList|
            invariant 0 <= i <= |savingLocationsList|
            invariant |writes| >= 1 && writes[0] == Local(command, args)
            invariant RemoteWrites(savingLocationsList[..i], command, args) == Ok(writes[1..])
          {
            var gateway := ReadProp(savingLocationsList[i], GatewayKey);
            assert savingLocationsList[..i + 1][..i] == savingLocationsList[..i];
            if gateway.Err? {
              RemoteWritesErrPropagates(savingLocationsList, i + 1, command, args);
              return Err(gateway.error);
            }
            assert (writes + [Remote(gateway.value, command, args)])[1..] == writes[1..] + [Remote(gateway.value, command, args)];
            writes := writes + [Remote(gateway.value, command, args)];
            i := i + 1;
          }
          assert savingLocationsList[..i] == savingLocationsList;
          assert writes == [Local(command, args)] + writes[1..];
          return Ok(writes);
        case Unset =>
          return Err(Thrown(UnrecognizedSavingTypeMessage));
      }
    }

    /** set: SET key data PX ttl, with NX or XX, written where the saving type says. */
    method Set(key: JsValue, data: JsValue, nx: JsValue, xx: JsValue) returns (r: Result<seq<Write>, JsError>)
      ensures r == Then(SetArguments(key, data, ttl, nx, xx), savingType, savingLocationsList, "SET")
    {
      if nx == Bool(true) && xx == Bool(true) {
        return Err(Thrown(BothFlagsMessage));
      }
      var args := [key, data, Str("PX"), Int(ttl)];
      if nx == Bool(true) {
        args := args + [Str("NX")];
      }
      if xx == Bool(true) {
        args := args + [Str("XX")];
      }
      assert SetArguments(key, data, ttl, nx, xx).Ok?;
      assert |SetArguments(key, data, ttl, nx, xx).value| == |args|;
      assert SetArguments(key, data, ttl, nx, xx).value == args;
      r := PerformWrite("SET", args);
    }

    /** addToList: ZADD key [NX|XX] score "score:data", the score being the expiry time `now + ttl`. */
    method AddToList(key: JsValue, data: JsValue, nx: JsValue, xx: JsValue, now: int) returns (r: Result<seq<Write>, JsError>)
      ensures r == Then(AddToListArguments(key, data, ttl, nx, xx, now), savingType, savingLocationsList, "ZADD")
    {
      if nx == Bool(true) && xx == Bool(true) {
        return Err(Thrown(BothFlagsMessage));
      }
      var score := now + ttl;
      var args := [key];
      if nx == Bool(true) {
        args := args + [Str("NX")];
      }
      if xx == Bool(true) {
        args := args + [Str("XX")];
      }
      args := args + [Int(score)];
      args := args + [Str(IntToDecimal(score) + ":" + JsString(data))];
      assert AddToListArguments(key, data, ttl, nx, xx, now).Ok?;
      assert |AddToListArguments(key, data, ttl, nx, xx, now).value| == |args|;
      assert AddToListArguments(key, data, ttl, nx, xx, now).value == args;
      r := PerformWrite("ZADD", args);
    }
  }

  /**
   * withDataDomain: the constructor's checks in order, the levels as indices into the area types
   * followed by "location", then the saving decision; the client carries exactly `RoutingOf`.
   */
  method WithDataDomain(infra: Infrastructure, own: string, inEvery: JsValue,
                        ref: JsValue, ttl: JsValue, saveAlso: JsValue) returns (r: Result<EdgeDbClient, JsError>)
    ensures match RoutingOf(infra, own, inEvery, ref, ttl, saveAlso)
      case Err(e) => r == Err(e)
      case Ok(routing) => r.Ok? && fresh(r.value) && r.value.Routed() == routing
  {
    var error := CheckArguments(ref, ttl, saveAlso, inEvery);
    if error.Some? {
      assert RoutingOf(infra, own, inEvery, ref, ttl, saveAlso) == Err(error.value);
      return Err(error.value);
    }
    r := Construct(infra, own, inEvery, ref, ttl, saveAlso);
  }

  /** The constructor once its argument checks pass: the levels, then the saving decision. */
  method Construct(infra: Infrastructure, own: string, inEvery: JsValue,
                   ref: JsValue, ttl: JsValue, saveAlso: JsValue) returns (r: Result<EdgeDbClient, JsError>)
    requires ArgumentError(ref, ttl, saveAlso, inEvery).None?
    ensures match RoutingOf(infra, own, inEvery, ref, ttl, saveAlso)
      case Err(e) => r == Err(e)
      case Ok(routing) => r.Ok? && fresh(r.value) && r.value.Routed() == routing
  {
    RoutingOfDecision(infra, own, inEvery, ref, ttl, saveAlso);
    var client := new EdgeDbClient(infra, own, inEvery, ref.s, ttl.i, saveAlso);
    if client.referringAreaTypeLevel == -1 {
      return Err(Thrown(InvalidAreaTypeMessage(PossibleAreaTypes(infra))));
    }
    var local := ref == LocationType || inEvery == ref;
    var failure := client.DecideSaving(local);
    if failure.Some? {
      return Err(failure.value);
    }
    return Ok(client);
  }

  /** The argument checks that open the constructor, in order. */
  method CheckArguments(ref: JsValue, ttl: JsValue, saveAlso: JsValue, inEvery: JsValue) returns (error: Option<JsError>)
    ensures error == ArgumentError(ref, ttl, saveAlso, inEvery)
  {
    if !ref.Str? {
      return Some(Thrown(NotAStringMessage));
    }
    if !ttl.Int? {
      return Some(Thrown(NotAnIntegerMessage));
    }
    if ttl.i > TtlMaxValue {
      return Some(Thrown(TtlTooBigMessage));
    }
    if ttl.i < TtlMinValue {
      return Some(Thrown(TtlTooSmallMessage));
    }
    if ref != LocationType && inEvery != ref {
      if !saveAlso.Bool? {
        return Some(Thrown(SaveAlsoMessage));
      }
    }
    return None;
  }

  /** The loop of the constructor over the levels from the referring one to the own one, inclusive. */
  method IntermediateLocations(infra: Infrastructure, own: string, refLevel: int, ownLevel: int)
    returns (r: Result<seq<JsValue>, JsError>)
    ensures r == IntermediateUpTo(infra, own, refLevel, ownLevel + 1)
  {
    var savingLocationsList := [];
    var level := refLevel;
    while level <= ownLevel
      invariant refLevel <= level
      invariant level == refLevel || level <= ownLevel + 1
      invariant IntermediateUpTo(infra, own, refLevel, level) == Ok(savingLocationsList)
      decreases ownLevel - level
    {
      var found := LocationObjectOfReferringArea(infra, own, level, MainResolved);
      if found.Err? || found.value.None? {
        assert IntermediateUpTo(infra, own, refLevel, level + 1).Err?;
        IntermediateErrPropagates(infra, own, refLevel, level + 1, ownLevel + 1);
        return if found.Err? then Err(found.error) else Err(TypeError);
      }
      var locationObject := found.value.value;
      if Get(locationObject, LocationIdKey) != Str(own) {
        savingLocationsList := savingLocationsList + [locationObject];
      }
      level := level + 1;
    }
    return Ok(savingLocationsList);
  }

  // ---------------------------------------------------------------------------------------------
  // Writes.
  // ---------------------------------------------------------------------------------------------

  /** One remote write per saving location, in order, to the gateway it names; reading it from null throws. */
  function RemoteWrites(locations: seq<JsValue>, command: string, args: seq<JsValue>): Result<seq<Write>, JsError> {
    if locations == [] then Ok([])
    else
      match RemoteWrites(locations[..|locations| - 1], command, args)
      case Err(e) => Err(e)
      case Ok(front) =>
        match ReadProp(locations[|locations| - 1], GatewayKey)
        case Err(e) => Err(e)
        case Ok(gateway) => Ok(front + [Remote(gateway, command, args)])
  }

  function WritesFor(savingType: SavingType, locations: seq<JsValue>, command: string, args: seq<JsValue>): Result<seq<Write>, JsError> {
    match savingType
    case OnlyLocal => Ok([Local(command, args)])
    case SingleRemote =>
      if locations == [] then Err(TypeError)
      else (match ReadProp(locations[0], GatewayKey)
            case Err(e) => Err(e)
            case Ok(gateway) => Ok([Remote(gateway, command, args)]))
    case SaveAlsoInIntermediateLevels =>
      (match RemoteWrites(locations, command, args)
       case Err(e) => Err(e)
       case Ok(remote) => Ok([Local(command, args)] + remote))
    case Unset => Err(Thrown(UnrecognizedSavingTypeMessage))
  }

  /** The writes of a command whose arguments were built, or the error building them threw. */
  function Then(args: Result<seq<JsValue>, JsError>, savingType: SavingType, locations: seq<JsValue>, command: string): Result<seq<Write>, JsError> {
    match args
    case Err(e) => Err(e)
    case Ok(a) => WritesFor(savingType, locations, command, a)
  }

  /** The arguments of SET; both flags at once throw. */
  function SetArguments(key: JsValue, data: JsValue, ttl: int, nx: JsValue, xx: JsValue): Result<seq<JsValue>, JsError> {
    if nx == Bool(true) && xx == Bool(true) then Err(Thrown(BothFlagsMessage))
    else Ok([key, data, Str("PX"), Int(ttl)]
            + (if nx == Bool(true) then [Str("NX")] else [])
            + (if xx == Bool(true) then [Str("XX")] else []))
  }

  /** The arguments of ZADD; both flags at once throw. */
  function AddToListArguments(key: JsValue, data: JsValue, ttl: int, nx: JsValue, xx: JsValue, now: int): Result<seq<JsValue>, JsError> {
    if nx == Bool(true) && xx == Bool(true) then Err(Thrown(BothFlagsMessage))
    else
      var score := now + ttl;
      Ok([key]
         + (if nx == Bool(true) then [Str("NX")] else [])
         + (if xx == Bool(true) then [Str("XX")] else [])
         + [Int(score), Str(IntToDecimal(score) + ":" + JsString(data))])
  }

  /** performActionLocally: only five Redis commands are run; the reply comes back as String(reply). */
  function LocalAction(command: string, reply: JsValue): (r: Result<string, JsError>)
    ensures r.Ok? <==> command in ["GET", "SET", "ZADD", "ZRANGEBYSCORE", "ZREMRANGEBYSCORE"]
    ensures r.Ok? ==> r.value == JsString(reply)
    ensures r.Err? ==> r.error == Thrown(UnrecognizedCommandMessage)
  {
    match command
    case "GET" => Ok(JsString(reply))
    case "SET" => Ok(JsString(reply))
    case "ZADD" => Ok(JsString(reply))
    case "ZRANGEBYSCORE" => Ok(JsString(reply))
    case "ZREMRANGEBYSCORE" => Ok(JsString(reply))
    case _ => Err(Thrown(UnrecognizedCommandMessage))
  }

  // ---------------------------------------------------------------------------------------------
  // Reading a list.
  // ---------------------------------------------------------------------------------------------

  /** The text after the first ':' (the whole text when there is none). */
  function StripScore(member: string): string {
    member[IndexOf(member, ':') + 1..]
  }

  /**
   * getList as written: the reply of ZRANGEBYSCORE comes back from performActionLocally as a
   * string, and the loop then assigns `list[i]` on that string, which throws in strict mode as
   * soon as there is a character to assign; an empty reply string is returned as is.
   */
  function GetListAsWritten(rangeReply: JsValue): Result<JsValue, JsError> {
    var list := LocalAction("ZRANGEBYSCORE", rangeReply).value;
    if |list| > 0 then Err(TypeError) else Ok(Str(list))
  }

  /** The score prefix of every member removed in place. */
  method StripScores(list: array<string>)
    modifies list
    ensures |list[..]| == |old(list[..])|
    ensures forall i :: 0 <= i < list.Length ==> list[i] == StripScore(old(list[i]))
  {
    var i := 0;
    while i < list.Length
      invariant 0 <= i <= list.Length
      invariant forall j :: 0 <= j < i ==> list[j] == StripScore(old(list[j]))
      invariant forall j :: i <= j < list.Length ==> list[j] == old(list[j])
    {
      list[i] := list[i][IndexOf(list[i], ':') + 1..];
      i := i + 1;
    }
  }

  /**
   * getList as intended: expire the members scored up to now, read the others (the Redis reply
   * kept as the array of its members) and strip each member's score.
   */
  method GetList(key: JsValue, now: int, members: seq<string>) returns (writes: seq<Write>, list: array<string>)
    ensures writes == [Local("ZREMRANGEBYSCORE", [key, Str("0"), Int(now)]), Local("ZRANGEBYSCORE", [key, Int(now), Str("+inf")])]
    ensures fresh(list) && list.Length == |members|
    ensures forall i :: 0 <= i < |members| ==> list[i] == StripScore(members[i])
  {
    writes := [Local("ZREMRANGEBYSCORE", [key, Str("0"), Int(now)])];
    writes := writes + [Local("ZRANGEBYSCORE", [key, Int(now), Str("+inf")])];
    list := new string[|members|](i requires 0 <= i < |members| => members[i]);
    StripScores(list);
  }

  // ---------------------------------------------------------------------------------------------
  // Properties.
  // ---------------------------------------------------------------------------------------------

  /** Stripping the score of a member written by addToList gives back the data, ':' included. */
  lemma {:induction false} StripScoreRoundTrip(score: int, data: string)
    ensures StripScore(IntToDecimal(score) + ":" + data) == data
  {
    var p := IntToDecimal(score);
    var s := p + ":" + data;
    assert ':' !in p;
    IndexOfColonPrefix(p, data);
    assert s[|p| + 1..] == data;
  }

  lemma {:induction false} IndexOfColonPrefix(p: string, data: string)
    requires ':' !in p
    ensures IndexOf(p + ":" + data, ':') == |p|
  {
    if p != [] {
      assert (p + ":" + data)[1..] == p[1..] + ":" + data;
      IndexOfColonPrefix(p[1..], data);
    } else {
      assert p + ":" + data == ":" + data;
    }
  }

  /** The last argument of ZADD is the member getList turns back into String(data). */
  lemma AddToListRoundTrip(key: JsValue, data: JsValue, ttl: int, nx: JsValue, xx: JsValue, now: int)
    requires !(nx == Bool(true) && xx == Bool(true))
    ensures var args := AddToListArguments(key, data, ttl, nx, xx, now);
      && args.Ok? && |args.value| >= 3
      && args.value[|args.value| - 2] == Int(now + ttl)
      && args.value[|args.value| - 1].Str?
      && StripScore(args.value[|args.value| - 1].s) == JsString(data)
  {
    StripScoreRoundTrip(now + ttl, JsString(data));
  }

  /**
   * As written, getList throws for every non-empty reply (a reply of one member, say): the
   * members never come back.
   */
  lemma GetListAsWrittenThrows(members: seq<string>)
    requires |members| > 0 && members[0] != ""
    ensures GetListAsWritten(Arr(seq(|members|, i requires 0 <= i < |members| => Str(members[i])), [])) == Err(TypeError)
  {
    var v := Arr(seq(|members|, i requires 0 <= i < |members| => Str(members[i])), []);
    JoinStartsWith(v, members[0]);
  }

  lemma JoinStartsWith(v: JsValue, first: string)
    requires v.Arr? && |v.items| > 0 && v.items[0] == Str(first) && first != ""
    ensures |JsString(v)| > 0
  {
    var rest := if |v.items| == 1 then "" else "," + JoinElements(v, 1);
    assert JoinElements(v, 0) == first + rest;
  }

  /** SET and ZADD refuse both flags at once; otherwise their argument vectors have this shape. */
  lemma SetArgumentsShape(key: JsValue, data: JsValue, ttl: int, nx: JsValue, xx: JsValue)
    ensures var r := SetArguments(key, data, ttl, nx, xx);
      && (r.Err? <==> nx == Bool(true) && xx == Bool(true))
      && (r.Err? ==> r.error == Thrown(BothFlagsMessage))
      && (r.Ok? ==> r.value[..4] == [key, data, Str("PX"), Int(ttl)]
                    && |r.value| == 4 + (if nx == Bool(true) || xx == Bool(true) then 1 else 0)
                    && (nx == Bool(true) ==> r.value[4] == Str("NX"))
                    && (xx == Bool(true) ==> r.value[4] == Str("XX")))
  {
  }

  /**
   * performWrite fans out to one local write for ONLY_LOCAL, one remote write to the first saving
   * location for SINGLE_REMOTE, and one local plus one remote write per saving location, in
   * order, for intermediate saving; an unset saving type throws.
   */
  lemma {:induction false} WritesForShape(savingType: SavingType, locations: seq<JsValue>, command: string, args: seq<JsValue>)
    ensures var r := WritesFor(savingType, locations, command, args);
      && (savingType == OnlyLocal ==> r == Ok([Local(command, args)]))
      && (savingType == SingleRemote && locations != [] && locations[0].Obj? ==>
            r == Ok([Remote(Get(locations[0], GatewayKey), command, args)]))
      && (savingType == SaveAlsoInIntermediateLevels && r.Ok? ==>
            |r.value| == 1 + |locations| && r.value[0] == Local(command, args)
            && forall j :: 0 <= j < |locations| ==> r.value[j + 1] == Remote(Get(locations[j], GatewayKey), command, args))
      && (savingType == SaveAlsoInIntermediateLevels && (forall x :: x in locations ==> x.Obj?) ==> r.Ok?)
      && (savingType == Unset ==> r == Err(Thrown(UnrecognizedSavingTypeMessage)))
  {
    if savingType == SaveAlsoInIntermediateLevels {
      RemoteWritesShape(locations, command, args);
      var remote := RemoteWrites(locations, command, args);
      if remote.Ok? {
        var ws := [Local(command, args)] + remote.value;
        assert WritesFor(savingType, locations, command, args) == Ok(ws);
        assert forall j :: 0 <= j < |locations| ==> ws[j + 1] == remote.value[j];
      }
    }
  }

  lemma {:induction false} RemoteWritesShape(locations: seq<JsValue>, command: string, args: seq<JsValue>)
    ensures var r := RemoteWrites(locations, command, args);
      && (r.Ok? ==> |r.value| == |locations|
                    && forall j :: 0 <= j < |locations| ==> r.value[j] == Remote(Get(locations[j], GatewayKey), command, args))
      && ((forall x :: x in locations ==> x.Obj?) ==> r.Ok?)
  {
    if locations != [] {
      var n := |locations| - 1;
      assert locations[n] in locations;
      assert forall x :: x in locations[..n] ==> x in locations;
      RemoteWritesShape(locations[..n], command, args);
    }
  }

  /**
   * The constructor's argument checks: these inputs throw these messages, in this order.
   */
  lemma RoutingChecks(infra: Infrastructure, own: string, inEvery: JsValue, ref: JsValue, ttl: JsValue, saveAlso: JsValue)
    ensures var r := RoutingOf(infra, own, inEvery, ref, ttl, saveAlso);
      && (!ref.Str? ==> r == Err(Thrown(NotAStringMessage)))
      && (ref.Str? && !ttl.Int? ==> r == Err(Thrown(NotAnIntegerMessage)))
      && (ref.Str? && ttl.Int? && ttl.i > TtlMaxValue ==> r == Err(Thrown(TtlTooBigMessage)))
      && (ref.Str? && ttl.Int? && ttl.i < TtlMinValue ==> r == Err(Thrown(TtlTooSmallMessage)))
      && ((ref.Str? && ttl.Int? && TtlMinValue <= ttl.i <= TtlMaxValue && ref != LocationType && inEvery != ref
           && !saveAlso.Bool?) ==> r == Err(Thrown(SaveAlsoMessage)))
  {
  }

  /** Once the arguments pass, an unknown referring area type throws; otherwise both levels are indices. */
  lemma RoutingLevels(infra: Infrastructure, own: string, inEvery: JsValue, ref: JsValue, ttl: JsValue, saveAlso: JsValue)
    requires ArgumentError(ref, ttl, saveAlso, inEvery).None?
    ensures ref !in PossibleAreaTypes(infra) ==>
      RoutingOf(infra, own, inEvery, ref, ttl, saveAlso) == Err(Thrown(InvalidAreaTypeMessage(PossibleAreaTypes(infra))))
    ensures RoutingOf(infra, own, inEvery, ref, ttl, saveAlso).Ok? ==>
      var r := RoutingOf(infra, own, inEvery, ref, ttl, saveAlso).value;
      && 0 <= r.refLevel < |infra.areaTypes| + 1
      && PossibleAreaTypes(infra)[r.refLevel] == ref
      && r.ownLevel == IndexOf(PossibleAreaTypes(infra), inEvery)
  {
    RoutingOfDecision(infra, own, inEvery, ref, ttl, saveAlso);
  }

  /**
   * ONLY_LOCAL is chosen exactly when the referring area type is "location", is the deployment's
   * own type, or (without intermediate saving) resolves to the own location; SINGLE_REMOTE then
   * has exactly the one referring-area object as saving location.
   */
  lemma DecisionCases(infra: Infrastructure, own: string, ownLevel: int, refLevel: int, local: bool, saveAlso: JsValue)
    requires Decision(infra, own, ownLevel, refLevel, local, saveAlso).Ok?
    ensures var r := Decision(infra, own, ownLevel, refLevel, local, saveAlso).value;
      && r.savingType != Unset
      && (local ==> r.savingType == OnlyLocal && r.locations == [])
      && (!local && Truthy(saveAlso) ==>
            r.savingType == SaveAlsoInIntermediateLevels
            && IntermediateUpTo(infra, own, refLevel, ownLevel + 1) == Ok(r.locations))
      && (!local && !Truthy(saveAlso) ==>
            && LevelObject(infra, own, refLevel).Ok?
            && (r.savingType == OnlyLocal <==> IsOwn(LevelObject(infra, own, refLevel).value, own))
            && (r.savingType == OnlyLocal ==> r.locations == [])
            && (r.savingType != OnlyLocal ==>
                  r.savingType == SingleRemote && r.locations == [LevelObject(infra, own, refLevel).value]))
  {
  }

  /** A lookup that throws at some level makes the whole intermediate loop throw the same. */
  lemma {:induction false} IntermediateErrPropagates(infra: Infrastructure, own: string, from: int, k: int, upTo: int)
    requires k <= upTo
    requires IntermediateUpTo(infra, own, from, k).Err?
    ensures IntermediateUpTo(infra, own, from, upTo) == IntermediateUpTo(infra, own, from, k)
    decreases upTo - k
  {
    if k < upTo {
      IntermediateErrPropagates(infra, own, from, k, upTo - 1);
    }
  }

  /** A location without a readable gateway makes the whole fan-out throw the same. */
  lemma {:induction false} RemoteWritesErrPropagates(locations: seq<JsValue>, k: nat, command: string, args: seq<JsValue>)
    requires k <= |locations|
    requires RemoteWrites(locations[..k], command, args).Err?
    ensures RemoteWrites(locations, command, args) == RemoteWrites(locations[..k], command, args)
    decreases |locations| - k
  {
    if k < |locations| {
      var n := |locations| - 1;
      assert locations[..n][..k] == locations[..k];
      RemoteWritesErrPropagates(locations[..n], k, command, args);
    } else {
      assert locations[..k] == locations;
    }
  }

  /**
   * With intermediate saving, the saving locations are, in level order, the referring-area objects
   * of every level from the referring level to the own level that are not the own location.
   */
  lemma {:induction false} IntermediateMembers(infra: Infrastructure, own: string, from: int, upTo: int)
    requires IntermediateUpTo(infra, own, from, upTo).Ok?
    ensures var xs := IntermediateUpTo(infra, own, from, upTo).value;
      && |xs| <= (if upTo <= from then 0 else upTo - from)
      && (forall x :: x in xs ==>
            !IsOwn(x, own) && exists level :: from <= level < upTo && LevelObject(infra, own, level) == Ok(x))
      && (forall level :: from <= level < upTo ==>
            LevelObject(infra, own, level).Ok?
            && (IsOwn(LevelObject(infra, own, level).value, own) || LevelObject(infra, own, level).value in xs))
    decreases upTo - from
  {
    if upTo > from {
      IntermediateMembers(infra, own, from, upTo - 1);
      var xs := IntermediateUpTo(infra, own, from, upTo - 1).value;
      var o := LevelObject(infra, own, upTo - 1).value;
      var ys := IntermediateUpTo(infra, own, from, upTo).value;
      assert ys == if IsOwn(o, own) then xs else xs + [o];
      forall x | x in ys
        ensures !IsOwn(x, own) && exists level :: from <= level < upTo && LevelObject(infra, own, level) == Ok(x)
      {
        if x !in xs {
          assert x == o;
          assert LevelObject(infra, own, upTo - 1) == Ok(x);
        }
      }
    }
  }
}
