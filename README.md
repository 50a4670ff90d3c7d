# Location-aware edge API — a Dafny model

This project models the logic of a location-aware edge computing framework, and proves properties of that model.

In the framework, an *infrastructure* is a tree of named areas, one level per area type (for example continent, country, city). Every non-root container names a `main-location`. The leaves are location records holding OpenFaaS and Redis endpoints.

JavaScript side:
- The deployer CLI validates the infrastructure.
- It computes area levels.
- It checks deployment input (`--inEvery`, `--inAreas`, `--exceptIn`) and selects the locations a deployment targets.
- The on-board parsers find the ancestor path of a location and the location object of its referring area.
- The edge database client validates a data domain. It then decides whether a write stays local, goes to one remote location, or also goes to every intermediate level. It builds the Redis argument vectors and fans each write out.
- Three function handlers sort searches by frequency, pick the two least crowded cameras, and clamp a crowd status to [0, 1].

Python side: the deterministic bookkeeping of the latency simulator.
- result containers (lists of samples in one version, counters and totals in the other);
- data messages and their stamps;
- the cable distance-to-delay formula;
- an edge location's receive / process / forward steps;
- a reader client's tier selection and read loop.

How the model is built:
- JSON values are a datatype (`JsValues.JsValue`). Objects are sequences of key/value pairs, so for-in order and first-match behaviour are explicit.
- Each recursive search is a function proved equal to a reference listing of the tree (`Hierarchy.Nodes`, `Hierarchy.Leaves`).
- Where the source loops and mutates, the model has methods proved against those functions.
- Stateful objects are classes: the edge database client, the result containers, messages, cables, edge locations and reader clients.
- Random draws, the simulation clock, Redis replies and environment variables are parameters.

## Model

| member | source | states |
|---|---|---|
| JsValues.IndexOf | edge-deployer-cli/main/utils/infrastructureParser.js:43 | Array indexOf (and the string indexOf(':') of getList): -1 exactly when the value is absent, otherwise an index holding it with no earlier occurrence |
| JsValues.ReadProp | framework/functions-main/common/edge-db/edgeDb.js:220 | reading a property throws exactly for null and undefined, and otherwise yields the property's value: an object's own property, a property assigned on an array, or undefined when there is none |
| JsValues.SetProp | edge-deployer-cli/main/utils/infrastructureParser.js:331 | assigning a property succeeds exactly on objects and arrays; the key then holds the value, every other key reads as before, an object stays an object and an array keeps its elements |
| JsValues.ArrayStampExample | edge-deployer-cli/main/utils/infrastructureParser.js:331 | a location record that is an array keeps its elements when stamped, and its `location_id` reads back as the stamped name where it read undefined before |
| JsValues.IntToDecimal | framework/functions-main/common/edge-db/edgeDb.js:210 | the number-to-string of the score is non-empty and made of digits and '-' only |
| InfrastructureParser.LevelInIsFirstNode | edge-deployer-cli/main/utils/infrastructureParser.js:243-267 | the level search below a container returns the depth of the first area or location with that name, in depth-first for-in order with "main-location" skipped, and null when there is none |
| InfrastructureParser.LevelInAreasIsFirstNode | edge-deployer-cli/main/utils/infrastructureParser.js:247-260 | the loop over an areas container returns a match at its own depth before searching the children, and the first result found below |
| InfrastructureParser.LevelInLocationsIsFirstNode | edge-deployer-cli/main/utils/infrastructureParser.js:269-280 | a locations container yields its own depth for the first location with the name, and null otherwise |
| InfrastructureParser.GetAreaLevelSpec | edge-deployer-cli/main/utils/infrastructureParser.js:100-104 | getAreaLevel is null iff no area or location has the name; a found level is at most the number of area types, and equals it exactly when the name is a location (its path has that many ancestors) |
| InfrastructureParser.IsDeploymentInputCorrect | edge-deployer-cli/main/utils/infrastructureParser.js:38-95 | true iff `--inEvery` is an area type or "location", and each of `--inAreas` and `--exceptIn` is absent or an array whose every element names an existing area no deeper than the `--inEvery` level |
| InfrastructureParser.CheckAreaList | edge-deployer-cli/main/utils/infrastructureParser.js:50-69 | one list argument is accepted iff it is null, undefined, or an array of existing names whose levels are at most the `--inEvery` level; a non-array is rejected |
| InfrastructureParser.Stamp | edge-deployer-cli/main/utils/infrastructureParser.js:330-331 | the strict-mode assignment of `location_id` succeeds exactly on objects and arrays and throws a TypeError on any other record; the stamped record then carries `location_id` equal to its name, every other field unchanged, and an array its elements |
| InfrastructureParser.SelectedRecordsFails | edge-deployer-cli/main/utils/infrastructureParser.js:325-333 | the selection fails exactly when some selected leaf's record is neither an object nor an array |
| InfrastructureParser.SelectedRecordsStamps | edge-deployer-cli/main/utils/infrastructureParser.js:325-333 | otherwise the selection lists, in order, one stamped record for every selected leaf and nothing else |
| InfrastructureParser.ListInContainerIsSelection | edge-deployer-cli/main/utils/infrastructureParser.js:295-317 | the listing below a container throws a TypeError exactly when a container it enters at depth inEvery+1 is null or undefined (reading its main-location), and otherwise equals the stamped records of its leaves in depth-first order that are selected, failing with a TypeError at the first selected record that is not an object or array. A leaf is selected when some element of its root-to-self path is in `--inAreas` (or that list is absent), none is in `--exceptIn`, and it is the main-location of its container at depth inEvery+1 when `--inEvery` is above the location level |
| InfrastructureParser.ListInAreasIsSelection | edge-deployer-cli/main/utils/infrastructureParser.js:301-312 | the loop over an areas container throws a TypeError when one of the remaining areas at depth inEvery is null or undefined, and otherwise concatenates the selected records of each child in order, the first error winning |
| InfrastructureParser.ListInLocationsIsSelection | edge-deployer-cli/main/utils/infrastructureParser.js:319-337 | a locations container contributes exactly its selected locations, each stamped, in for-in order, or the TypeError of the first selected record that cannot be stamped |
| InfrastructureParser.GetAllLocations | edge-deployer-cli/main/utils/infrastructureParser.js:113-119 | getAllLocations throws a TypeError exactly when a container at depth inEvery+1 is null or undefined or a selected record cannot be stamped, and otherwise returns exactly the selected leaves of the whole hierarchy, stamped, in order |
| InfrastructureParser.ListOfLocationsInAreasContainer | edge-deployer-cli/main/utils/infrastructureParser.js:295-317 | the recursive method returns the listing of the specification, error included, so by `ListInContainerIsSelection` the selected leaves or the TypeError |
| InfrastructureParser.ListOfLocationsInAreas | edge-deployer-cli/main/utils/infrastructureParser.js:304-312 | the for-in loop with concatenation yields the listing over every child, stopping at the first child that throws |
| InfrastructureParser.ListOfLocationsInLocationsContainer | edge-deployer-cli/main/utils/infrastructureParser.js:319-337 | the loop that stamps and pushes records yields exactly the selected locations of the container, or stops with the TypeError of the first record that cannot be stamped |
| InfrastructureParser.ListingTypeErrorExamples | edge-deployer-cli/main/utils/infrastructureParser.js:295-331 | a record that is a number throws at the `location_id` assignment, and a null area at depth inEvery+1 throws at the main-location read |
| InfrastructureValidation.MainLocationVerdict | edge-deployer-cli/main/utils/infrastructureParser.js:187-198 | a container's main-location check passes only when main-location is a non-empty string |
| InfrastructureValidation.InfrastructureVerdict | edge-deployer-cli/main/utils/infrastructureParser.js:10-27 | validation fails when `hierarchy` is falsy or `areaTypesIdentifiers` is not an array; a pass implies every area type is a string and not a reserved keyword |
| InfrastructureValidation.FreshMeansDistinct | edge-deployer-cli/main/utils/infrastructureParser.js:200-204 | pushing names one by one onto the seen list never meets a repeat iff the names are pairwise distinct and none was seen before |
| InfrastructureValidation.FreshConcat | edge-deployer-cli/main/utils/infrastructureParser.js:200-204 | names are fresh across two batches iff the first batch is fresh and the second is fresh after the first |
| InfrastructureValidation.CheckContainerSpec | edge-deployer-cli/main/utils/infrastructureParser.js:133-164 | a container passes iff it is well formed (valid names, valid records, valid main-locations below the root) and the names below it are fresh; on a pass the seen list grows by exactly those names in depth-first order |
| InfrastructureValidation.CheckAreasSpec | edge-deployer-cli/main/utils/infrastructureParser.js:139-154 | the loop over an areas container passes iff every child area is valid and fresh, and it records their names in order |
| InfrastructureValidation.CheckLocationsSpec | edge-deployer-cli/main/utils/infrastructureParser.js:166-185 | a locations container passes iff its names are valid and fresh, every record has the five truthy fields, and its main-location is valid |
| InfrastructureValidation.InfrastructureVerdictSpec | edge-deployer-cli/main/utils/infrastructureParser.js:10-27 | isInfrastructureJsonCorrect is true iff the hierarchy is truthy, the area types form an array of valid types, the hierarchy is well formed from level 0, and all area and location names are pairwise distinct |
| InfrastructureValidation.MainLocationSearchedFromLevelZero | edge-deployer-cli/main/utils/infrastructureParser.js:187-189 | as written, a city whose main-location is the record field "redis_host" validates; with the search started at the container's own depth it does not |
| InfrastructureValidation.MainLocationNamesNodeBelow | edge-deployer-cli/main/utils/infrastructureParser.js:188-190 | with the intended search, a passing main-location names an area or location below its container |
| InfrastructureValidation.InfrastructureChecker.constructor | edge-deployer-cli/main/utils/infrastructureParser.js:127 | the checker keeps the main-location search mode it is built with (the code as written searches from level 0) and its list of seen area names starts empty |
| InfrastructureValidation.InfrastructureChecker.IsInfrastructureJsonCorrect | edge-deployer-cli/main/utils/infrastructureParser.js:10-28 | the imperative validation returns the verdict of the specification in the checker's main-location search mode, so by `InfrastructureVerdictSpec` it is true exactly for infrastructures valid in that mode |
| InfrastructureValidation.InfrastructureChecker.IsHierarchyObjectCorrect | edge-deployer-cli/main/utils/infrastructureParser.js:128-131 | the seen names are reset, the hierarchy is checked from level 0, and the seen list ends as the specification's |
| InfrastructureValidation.InfrastructureChecker.IsAreasContainerCorrect | edge-deployer-cli/main/utils/infrastructureParser.js:133-164 | the verdict and the grown seen-name list equal the specification's for that container, level and search mode |
| InfrastructureValidation.InfrastructureChecker.IsLocationsContainerCorrect | edge-deployer-cli/main/utils/infrastructureParser.js:166-185 | the verdict and the grown seen-name list equal the specification's for a locations container |
| InfrastructureValidation.InfrastructureChecker.IsAUniqueAreaName | edge-deployer-cli/main/utils/infrastructureParser.js:200-204 | a name is unique iff it was not seen before, and it is appended to the seen list either way |
| InfrastructureValidation.InfrastructureChecker.CanBeValidArea | edge-deployer-cli/main/utils/infrastructureParser.js:206-216 | an area name is valid iff it is unseen, not reserved and not an area type; it is recorded as seen in every case |
| EdgeOnBoardParser.ReferringIdInSpec | functions-edge/common/edge-db/onBoardInfrastructureParser.js:32-57 | the recursive search returns, for the first leaf named like the own location, the main-location of its container at the referring depth (the locations container's when no enclosing level matches), and null when no leaf has that name |
| EdgeOnBoardParser.ReferringIdInAreasSpec | functions-edge/common/edge-db/onBoardInfrastructureParser.js:36-52 | once a child reports a match, an areas container at level L returns its own main-location when the referring level is L-1, and otherwise the child's result |
| EdgeOnBoardParser.ReferringIdInLocationsSpec | functions-edge/common/edge-db/onBoardInfrastructureParser.js:59-72 | a locations container returns its main-location if it holds the own location, and null otherwise |
| EdgeOnBoardParser.ReferringIdOfSpec | functions-edge/common/edge-db/onBoardInfrastructureParser.js:11-15 | the result is null when the own location is no leaf; a non-null result is the main-location recorded on the path of the first leaf with that name, at the referring depth |
| EdgeOnBoardParser.RecordInSpec | functions-edge/common/edge-db/onBoardInfrastructureParser.js:84-104 | the record search below a container finds the first leaf with the name, in depth-first for-in order |
| EdgeOnBoardParser.RecordInAreasSpec | functions-edge/common/edge-db/onBoardInfrastructureParser.js:88-97 | the loop over an areas container returns the first child result that is not null |
| EdgeOnBoardParser.RecordInLocationsSpec | functions-edge/common/edge-db/onBoardInfrastructureParser.js:106-119 | a locations container yields the record of its first location with the name, skipping "main-location" |
| EdgeOnBoardParser.StampLocationId | functions-edge/common/edge-db/onBoardInfrastructureParser.js:112-113 | stamping throws a TypeError unless the record is an object or array; the stamped record gets `location_id` set, every other field unchanged, and stays an object exactly when it was one |
| EdgeOnBoardParser.LocationObjectSpec | functions-edge/common/edge-db/onBoardInfrastructureParser.js:17-21 | getLocationObject is null iff no location (leaf) has the name, and otherwise the first such record stamped with the name; area names are never matched |
| MainOnBoardParser.InvertedPathSpec | functions-main/common/edge-db/onBoardInfrastructureParser.js:31-58 | the bottom-up list exists iff some area or location has the name; reversed and put after the parents, it is the root-first path to the first such node |
| MainOnBoardParser.InvertedPathAreasSpec | functions-main/common/edge-db/onBoardInfrastructureParser.js:35-53 | an areas container stops at an area with the name, and otherwise pushes its child's name onto the first non-null result below |
| MainOnBoardParser.InvertedPathLocationsSpec | functions-main/common/edge-db/onBoardInfrastructureParser.js:60-70 | a locations container yields the one-element list of the first location with the name, and null otherwise |
| MainOnBoardParser.PathInLocationsContainer | functions-main/common/edge-db/onBoardInfrastructureParser.js:60-70 | the loop returns the list the specification gives |
| MainOnBoardParser.PathInContainer | functions-main/common/edge-db/onBoardInfrastructureParser.js:31-58 | the recursive search with push returns the inverted path of the specification |
| MainOnBoardParser.ReverseInPlace | functions-main/common/edge-db/onBoardInfrastructureParser.js:27 | Array reverse leaves the array holding the old contents backwards |
| MainOnBoardParser.ListOfParents | functions-main/common/edge-db/onBoardInfrastructureParser.js:25-29 | reversing null throws a TypeError; otherwise a fresh array holds the root-first path |
| MainOnBoardParser.PathOfSpec | functions-main/common/edge-db/onBoardInfrastructureParser.js:25-29 | the parents list fails iff the name is nowhere; otherwise it is the ancestors of the first match followed by the name, and its length is the match's depth plus one |
| MainOnBoardParser.ObjectInSpec | functions-main/common/edge-db/onBoardInfrastructureParser.js:76-102 | the object search below a container is decided by the first area or location with the name; null when there is none |
| MainOnBoardParser.ObjectInAreasSpec | functions-main/common/edge-db/onBoardInfrastructureParser.js:80-97 | an areas container yields the object of an area with the name, and otherwise the first non-null result below |
| MainOnBoardParser.ObjectInLocationsSpec | functions-main/common/edge-db/onBoardInfrastructureParser.js:104-114 | a locations container yields the stamped record of its first location with the name |
| MainOnBoardParser.ObjectOfSpec | functions-main/common/edge-db/onBoardInfrastructureParser.js:72-74 | the lookup is null iff no area or location has the name; a location yields its record stamped with the name, and an area yields its area object |
| MainOnBoardParser.LocationObjectOfReferringArea | functions-main/common/edge-db/onBoardInfrastructureParser.js:11-18 | the method returns what the specification gives for the path element at the referring level |
| MainOnBoardParser.ReferringAreaObjectSpec | functions-main/common/edge-db/onBoardInfrastructureParser.js:14-17 | the result is the object of the ancestor at the referring level, or of the own location when that level is its own depth; null for a level outside the path; a TypeError when the own location is nowhere |
| MainOnBoardParser.AreaLookupAsWrittenThrows | functions-main/common/edge-db/onBoardInfrastructureParser.js:86-87 | as written, looking up an area whose main-location is a name throws a TypeError |
| MainOnBoardParser.AreaLookupResolved | functions-main/common/edge-db/onBoardInfrastructureParser.js:84-88 | resolved, looking up an area yields the record of the location its main-location names, stamped with the area's id, with every other field unchanged |
| FrameworkEdgeDb.RoutingChecks | framework/functions-main/common/edge-db/edgeDb.js:110-128 | the constructor throws, in this order, for a non-string referring type, a non-integer ttl, ttl above 365 days in ms, ttl below 100, and a missing boolean intermediate-saving flag outside "location" and the deployment's own type |
| FrameworkEdgeDb.RoutingOfDecision | framework/functions-main/common/edge-db/edgeDb.js:142-148 | once the argument checks pass, an unknown referring type throws the invalid-type message; otherwise the saving decision runs on the two levels |
| FrameworkEdgeDb.RoutingLevels | framework/functions-main/common/edge-db/edgeDb.js:142-148 | a built client's referring level indexes the referring type within the area types followed by "location", and its own level is the index of the deployment's type |
| FrameworkEdgeDb.DecisionCases | framework/functions-main/common/edge-db/edgeDb.js:152-177 | ONLY_LOCAL with no locations for "location" or the deployment's own type. With intermediate saving, the intermediate list. Otherwise ONLY_LOCAL when the referring object is the own location, else SINGLE_REMOTE with exactly that object |
| FrameworkEdgeDb.IntermediateMembers | framework/functions-main/common/edge-db/edgeDb.js:159-164 | the intermediate list holds, for each level from the referring one to the own one, that level's referring object unless it is the own location, and nothing else |
| FrameworkEdgeDb.EdgeDbClient.constructor | framework/functions-main/common/edge-db/edgeDb.js:130-145 | the fields hold the arguments, both levels are indices into the area types followed by "location", the saving list is empty and the saving type unset |
| FrameworkEdgeDb.EdgeDbClient.DecideSaving | framework/functions-main/common/edge-db/edgeDb.js:152-177 | the constructor's saving decision leaves the client holding exactly the routing `Decision` gives, or reports its error |
| FrameworkEdgeDb.IntermediateLocations | framework/functions-main/common/edge-db/edgeDb.js:159-164 | the level loop with push yields the intermediate list of the specification, or the first lookup error |
| FrameworkEdgeDb.CheckArguments | framework/functions-main/common/edge-db/edgeDb.js:110-128 | the sequence of throwing checks yields the specification's first argument error |
| FrameworkEdgeDb.Construct | framework/functions-main/common/edge-db/edgeDb.js:141-177 | after the argument checks, a fresh client carrying exactly the routing of the specification, or its error |
| FrameworkEdgeDb.WithDataDomain | framework/functions-main/common/edge-db/edgeDb.js:108-178 | construction fails with the specification's error, or yields a fresh client whose levels, saving type and saving list are the specification's |
| FrameworkEdgeDb.EdgeDbClient.PerformWrite | framework/functions-main/common/edge-db/edgeDb.js:216-231 | the writes are those `WritesFor` gives for the client's saving type and list |
| FrameworkEdgeDb.WritesForShape | framework/functions-main/common/edge-db/edgeDb.js:216-231 | one local write for ONLY_LOCAL; one remote write to the first saving location's gateway for SINGLE_REMOTE; one local write plus one remote write per saving location, in order, for intermediate saving; any other saving type throws |
| FrameworkEdgeDb.RemoteWritesShape | framework/functions-main/common/edge-db/edgeDb.js:224-226 | the remote writes are one per saving location, in order, each to that location's gateway, and they exist whenever every location is an object |
| FrameworkEdgeDb.LocalAction | framework/functions-main/common/edge-db/edgeDb.js:39-67 | a local command runs iff it is GET, SET, ZADD, ZRANGEBYSCORE or ZREMRANGEBYSCORE, answering the reply converted to a string; any other command throws |
| FrameworkEdgeDb.SetArgumentsShape | framework/functions-main/common/edge-db/edgeDb.js:180-190 | SET arguments are key, data, "PX", ttl, followed by NX or XX when that flag is true; both flags at once throw |
| FrameworkEdgeDb.EdgeDbClient.Set | framework/functions-main/common/edge-db/edgeDb.js:180-194 | set pushes the SET arguments and fans them out as performWrite does |
| FrameworkEdgeDb.EdgeDbClient.AddToList | framework/functions-main/common/edge-db/edgeDb.js:196-214 | addToList pushes key, the optional flag, the score now+ttl and "score:data", and fans them out as performWrite does |
| FrameworkEdgeDb.AddToListRoundTrip | framework/functions-main/common/edge-db/edgeDb.js:202-210 | the stored member of a list item, stripped as getList strips it, gives back the data as a string, even when the data contains ':' |
| FrameworkEdgeDb.StripScoreRoundTrip | framework/functions-main/common/edge-db/edgeDb.js:32-34 | stripping up to the first ':' undoes the score prefix exactly |
| FrameworkEdgeDb.StripScores | framework/functions-main/common/edge-db/edgeDb.js:32-34 | the in-place loop replaces every element by its stripped form and keeps the length |
| FrameworkEdgeDb.GetList | framework/functions-main/common/edge-db/edgeDb.js:22-37 | getList expires up to now, reads from now to +inf, and returns every member stripped of its score |
| FrameworkEdgeDb.GetListAsWrittenThrows | framework/functions-main/common/edge-db/edgeDb.js:29-34 | as written, the reply arrives as a string, and the first assignment to an index of it throws a TypeError whenever the list is non-empty |
| EdgeFunctionsDb.EdgeChecks | functions-edge/common/edge-db/edge-db.js:48-65 | a falsy type throws the not-set message and true, an array or an object the not-a-string message; for a non-empty string type, a falsy ttl (0 included) throws the ttl-not-set message, a ttl above 365 days in ms the too-big one and a non-zero ttl below 100 the too-small one; the checks pass iff the type is a non-empty string and the ttl an integer with 100 <= ttl <= 365 days in ms |
| EdgeFunctionsDb.EdgeChecksAgreeWithMain | functions-edge/common/edge-db/edge-db.js:48-65 | for a non-empty string type and a non-zero integer ttl, these checks throw exactly what the main functions' client throws |
| EdgeFunctionsDb.ConstructAsWrittenNeverSucceeds | functions-edge/common/edge-db/edge-db.js:68-70 | as written, the constructor never returns a client: every input that passes the checks throws ReferenceError |
| EdgeFunctionsDb.ConstructAsWrittenExample | functions-edge/common/edge-db/edge-db.js:67-70 | a country-level domain with ttl 60000 throws as written, while the intended constructor accepts it with level 1 |
| EdgeFunctionsDb.ConstructSpec | functions-edge/common/edge-db/edge-db.js:38-73 | the intended constructor succeeds iff the checks pass and the type is an area type or "location"; it then records the type, the ttl and the type's index, and otherwise throws the first failing check's message |
| EdgeFunctionsDb.EdgeDbClientWithDataDomain.constructor | functions-edge/common/edge-db/edge-db.js:39-45 | the client holds the referring type, the ttl and the referring level |
| EdgeFunctionsDb.WithDataDomain | functions-edge/common/edge-db/edge-db.js:38-73 | the step-by-step checks fail with the specification's error, or yield a fresh client carrying exactly the validated domain |
| EdgeFunctionsDb.SetSpec | functions-edge/common/edge-db/edge-db.js:75-100 | set throws iff both flags are true; its arguments are the main client's SET arguments; it answers MISSING_IMPLEMENTATION exactly for an OK reply outside "location" (or that reply itself), and the reply unchanged otherwise |
| EdgeFunctionsDb.EdgeDbClientWithDataDomain.Set | functions-edge/common/edge-db/edge-db.js:75-100 | the method that pushes the arguments returns the outcome `SetSpec` describes |
| SearchAnalytics.Frequencies | framework/functions-main/search-analytics-performer/handler.js:21-33 | the frequency object's own keys are exactly the input values other than "__proto__", listed in first-occurrence order; a name inherited from Object.prototype (such as "toString") holds NaN, and every other key its number of occurrences, at least 1 |
| SearchAnalytics.KeysSpec | framework/functions-main/search-analytics-performer/handler.js:35-39 | the keys collected by the for-in loop have no repeats, are exactly the input values other than "__proto__", are no more than the inputs, and are empty iff every input is "__proto__" |
| SearchAnalytics.CountNew | framework/functions-main/search-analytics-performer/handler.js:30-32 | the first occurrence of an own name adds it as a key with count 1 and keeps the frequency object consistent with the inputs read so far |
| SearchAnalytics.CountOwn | framework/functions-main/search-analytics-performer/handler.js:27-29 | a name that is already an own key is incremented (a NaN stays NaN), no key is added, and the frequency object stays consistent with the inputs read so far |
| SearchAnalytics.CountInherited | framework/functions-main/search-analytics-performer/handler.js:27-29 | an inherited Object.prototype name that is not yet an own key is found by `in`; the `++` on the inherited method stores NaN under a new own key appended to the key order |
| SearchAnalytics.CountProto | framework/functions-main/search-analytics-performer/handler.js:27-29 | a "__proto__" search is found by `in` and its assignment is ignored by the accessor, so the frequency object and its keys are unchanged |
| SearchAnalytics.SortByFrequency | framework/functions-main/search-analytics-performer/handler.js:41-46 | the in-place sort permutes the array; when every element has a numeric frequency the result is in non-increasing frequency order |
| SearchAnalytics.SortByFrequencyAndRemoveDuplicates | framework/functions-main/search-analytics-performer/handler.js:21-47 | the result is fresh and a permutation of the frequency keys: every input value other than "__proto__" exactly once and nothing else; when no input is an inherited Object.prototype name, it is in non-increasing occurrence count |
| SearchAnalytics.TrendingSpec | framework/functions-main/search-analytics-performer/handler.js:21-47 | any permutation of the frequency keys has the input's members except "__proto__", no repeats, length at most the input's, and is empty iff every input is "__proto__" |
| SearchAnalytics.InheritedNameExamples | framework/functions-main/search-analytics-performer/handler.js:27-46 | ["__proto__"] yields no keys; ["toString","a","a"] yields keys toString and a with frequencies NaN and 2, and neither is strictly more frequent than the other for the sort |
| LessCrowdedPath.FillStatuses | functions-main/get-less-crowded-path/handler.js:11-18 | there is one status per camera id: the stored value, or 1.0 when none is stored |
| LessCrowdedPath.PickSpec | functions-main/get-less-crowded-path/handler.js:34-53 | a pick is absent iff no allowed status is below 1.001; otherwise it is the earliest index of the least status below 1.001, among indices other than the excluded one |
| LessCrowdedPath.ComputeBestPath | functions-main/get-less-crowded-path/handler.js:32-56 | the two loops return the ids of the first pick and of the second pick (with the first excluded), undefined where there is no pick |
| LessCrowdedPath.BestPathPicks | functions-main/get-less-crowded-path/handler.js:34-55 | a second pick implies a first; the two picks are different indices and the first's status is at most the second's; there is no first pick iff every status is at least 1.001 |
| LessCrowdedPath.BestPathDistinctCameras | functions-main/get-less-crowded-path/handler.js:55 | with distinct camera ids, the two returned ids are different whenever both are defined |
| LessCrowdedPath.GetLessCrowdedPath | functions-main/get-less-crowded-path/handler.js:6-25 | the handler answers the best path of the fixed camera list over the statuses read, with defaults |
| CrowdStatus.AnalyzeCrowdStatus | functions-main/video-footage-receiver/handler.js:21-31 | the status lies in [0, 1]; inputs above 1 give exactly 1, inputs below 0 give exactly 0, and the rest pass through unchanged |
| CrowdStatus.AnalyzeCrowdStatusIdempotent | functions-main/video-footage-receiver/handler.js:25-30 | clamping twice is clamping once |
| CrowdStatus.AnalyzedStatusesQualify | functions-main/video-footage-receiver/handler.js:25-30 | statuses in [0, 1] always qualify: one camera gives a first pick, two give a second too |
| CrowdStatus.BestPathAlwaysFound | functions-main/video-footage-receiver/handler.js:12-15 | when the store holds only clamped statuses (a missing status read as 1.0), the path handler always answers two different cameras of its list |
| SimulationResults.Mean | evaluation/python-simulator/src/result_container.py:73-76 | the average is 0 for an empty list, and otherwise times the count gives the sum |
| SimulationResults.MeanBounds | evaluation/python-simulator/src/result_container.py:73-76 | a mean lies between any lower and upper bound of its values |
| SimulationResults.ResultContainer.constructor | evaluation/python-simulator/src/result_container.py:7-26 | a fresh container has every list empty and zero packages produced |
| SimulationResults.ResultContainer.ReportFirstLinkLatencyTrafficAndDistance | evaluation/python-simulator/src/result_container.py:28-32 | appends the latency, traffic times distance, and the distance to the three first-link lists and changes nothing else; the first-link traffic total grows by traffic times distance |
| SimulationResults.ResultContainer.ReportFirstProcessingLatency | evaluation/python-simulator/src/result_container.py:34-35 | appends to the first-processing list only |
| SimulationResults.ResultContainer.ReportSecondLinkLatencyTrafficAndDistance | evaluation/python-simulator/src/result_container.py:37-41 | the same on the three second-link lists only |
| SimulationResults.ResultContainer.ReportSecondProcessingLatency | evaluation/python-simulator/src/result_container.py:43-44 | appends to the second-processing list only |
| SimulationResults.ResultContainer.ReportTotalFinishedLatency | evaluation/python-simulator/src/result_container.py:46-47 | appends to the total-finished list only |
| SimulationResults.ResultContainer.PrintResultCheck | evaluation/python-simulator/src/result_container.py:49-53 | print_result raises AssertionError iff the check is on and the average total is 0.5 or more away from the sum of the four stage averages |
| SimulationResults.ConsistentStagesPassCheck | evaluation/python-simulator/src/result_container.py:49-53 | when every finished packet's total is the sum of its four stage latencies, the check passes |
| SimulationResults.ResultContainer.GetAverageFirstLinkLatency | evaluation/python-simulator/src/result_container.py:73-76 | 0 for an empty list, otherwise the arithmetic mean (times the count gives the sum) |
| SimulationResults.ResultContainer.GetAverageFirstProcessingLatency | evaluation/python-simulator/src/result_container.py:78-81 | 0 for an empty list, otherwise the arithmetic mean |
| SimulationResults.ResultContainer.GetAverageSecondLinkLatency | evaluation/python-simulator/src/result_container.py:83-86 | 0 for an empty list, otherwise the arithmetic mean |
| SimulationResults.ResultContainer.GetAverageSecondProcessingLatency | evaluation/python-simulator/src/result_container.py:88-91 | 0 for an empty list, otherwise the arithmetic mean |
| SimulationResults.ResultContainer.GetAverageTotalLatency | evaluation/python-simulator/src/result_container.py:93-96 | 0 for an empty list, otherwise the arithmetic mean |
| SimulationResults.ResultContainer.GetAverageTotalLatencyConfidence | evaluation/python-simulator/src/result_container.py:98-104 | 0 for no samples; an error iff there is exactly one sample; otherwise non-negative, and times the square root of n it equals 3.291 times the sample standard deviation |
| SimulationResults.ConfidenceOfIdenticalLatencies | evaluation/python-simulator/src/result_container.py:98-104 | identical total latencies give a confidence half-width of 0 |
| SimulationResults.ResultContainer.GetTotalFirstLinkTrafficPerDistance | evaluation/python-simulator/src/result_container.py:106-107 | 0 for an empty list, and non-negative when every entry is |
| SimulationResults.ResultContainer.GetTotalSecondLinkTrafficPerDistance | evaluation/python-simulator/src/result_container.py:109-110 | 0 for an empty list, and non-negative when every entry is |
| SimulationResults.ResultContainer.GetAverageFirstLinkDistance | evaluation/python-simulator/src/result_container.py:112-115 | 0 for an empty list, otherwise the arithmetic mean |
| SimulationResults.ResultContainer.GetAverageSecondLinkDistance | evaluation/python-simulator/src/result_container.py:117-120 | 0 for an empty list, otherwise the arithmetic mean |
| CounterResults.Divide | python-simulator/src/result_container.py:52-59 | an unguarded average raises ZeroDivisionError iff the count is 0, and otherwise times the count gives the total |
| CounterResults.GuardedDivide | python-simulator/src/result_container.py:61-71 | a guarded average is 0 for a count of 0 or less, and otherwise times the count gives the total |
| CounterResults.GuardAgreesWithDivision | python-simulator/src/result_container.py:61-71 | for a positive count the guarded and unguarded averages agree |
| CounterResults.ResultContainer.constructor | python-simulator/src/result_container.py:3-28 | a fresh container has every counter at 0 and every total at 0.0 |
| CounterResults.ResultContainer.PrintResultCheck | python-simulator/src/result_container.py:30-32 | the check succeeds iff the total, first-link and first-processing counts are non-zero and the average total is within 0.5 of the sum of the stage averages; a zero first-link or first-processing count gives ZeroDivisionError |
| CounterResults.FreshContainerCheckFails | python-simulator/src/result_container.py:30-32 | with no packet over the first link, print_result raises ZeroDivisionError |
| CounterResults.ConsistentTotalsPassCheck | python-simulator/src/result_container.py:30-32 | when the total latency equals the aggregated count times the sum of the stage averages, the check passes |
| CounterResults.ResultContainer.GetAverageTotalLatency | python-simulator/src/result_container.py:52-53 | ZeroDivisionError iff no packet was aggregated, otherwise the average |
| CounterResults.ResultContainer.GetAverageFirstLinkLatency | python-simulator/src/result_container.py:55-56 | ZeroDivisionError iff the first-link count is 0, otherwise the average |
| CounterResults.ResultContainer.GetAverageFirstProcessingLatency | python-simulator/src/result_container.py:58-59 | ZeroDivisionError iff the first-processing count is 0, otherwise the average |
| CounterResults.ResultContainer.GetAverageSecondLinkLatency | python-simulator/src/result_container.py:61-65 | 0 when the count is at most 0, otherwise the average |
| CounterResults.ResultContainer.GetAverageSecondProcessingLatency | python-simulator/src/result_container.py:67-71 | 0 when the count is at most 0, otherwise the average |
| CounterResults.ResultContainer.GetAverageFirstLinkTrafficPerDistance | python-simulator/src/result_container.py:74-75 | ZeroDivisionError iff the first-link count is 0, otherwise the average |
| CounterResults.ResultContainer.GetAverageSecondLinkTrafficPerDistance | python-simulator/src/result_container.py:77-81 | 0 when the count is at most 0, otherwise the average |
| Messages.DataMessage.constructor | evaluation/python-simulator/src/communication/data_message.py:6-11 | size, creation time and sent time are as given; distance and latency are unset |
| Messages.DataMessage.SetDistanceTraveled | evaluation/python-simulator/src/communication/data_message.py:13-15 | needs a non-negative distance, sets it, and leaves the latency as it was (size and times are immutable) |
| Messages.DataMessage.SetLatencyAcquired | evaluation/python-simulator/src/communication/data_message.py:17-19 | needs a non-negative latency, sets it, and leaves the distance as it was |
| Cables.NetworkDelayProfile | evaluation/python-simulator/src/communication/transmission.py:54-59 | the weak-network flag selects the 12/8 delay distribution, and robust links get 3/1 |
| Cables.SignalSpeedLimit | evaluation/python-simulator/src/communication/transmission.py:52-64 | whatever the samplers draw, the distance part of the delay covers at most 71.1 km per ms of delay: distance <= signal speed times delay |
| Cables.GetCableDistanceAndDelay | evaluation/python-simulator/src/communication/transmission.py:52-64 | the pair is the distance drawn by the second sampler and the network delay drawn by the first plus distance over signal speed; both are non-negative and the delay is at least the distance part |
| Cables.Transmission.constructor | evaluation/python-simulator/src/communication/transmission.py:27-37 | needs a positive mean and std distance; the cable keeps them, its weak flag, and an empty store |
| Cables.Transmission.PutWithLatency | evaluation/python-simulator/src/communication/transmission.py:45-50 | the message is stamped with the distance and delay drawn from the two samplers, then appended to the store; the delay is returned |
| EdgeLocations.EdgeLocation.constructor | python-simulator/src/processing_units/edge_location.py:17-53 | needs at least one core, positive distances and bandwidth, non-negative start-delay parameters, and aggregator cables when forwarding; creates a fresh incoming cable that is weak exactly for first-link data |
| EdgeLocations.EdgeLocation.OnDataMessageReceived | python-simulator/src/processing_units/edge_location.py:55-67 | a received message's latency, size times distance, and distance are reported to the first-link lists for first-link data and to the second-link lists otherwise; nothing else changes |
| EdgeLocations.EdgeLocation.GetProcessingTime | python-simulator/src/processing_units/edge_location.py:69-73 | the processing time is the start-delay sample plus megabytes over bandwidth, so never less than the transfer time alone |
| EdgeLocations.EdgeLocation.OnProcessingEnded | python-simulator/src/processing_units/edge_location.py:75-96 | the processing latency goes to the first- or second-processing list. A forwarding location sends one fresh, distinct message per aggregator cable, all of one sampled size, with the original creation time, sent now, unstamped. A final location records now minus the creation time as one total latency and sends nothing. Any other location only records the processing latency |
| EdgeLocations.SendProcessedData | python-simulator/src/processing_units/edge_location.py:85-92 | the loop creates one new message per cable, pairwise distinct, each with the given size, creation time and sent time |
| DataReaders.SelectTierIsFirstCoveringPrefix | evaluation/python-simulator/src/clients/data_reader_client.py:66-80 | the chosen tier is the first index i with extraction <= p0+...+pi; the selection raises "Probabilities not summing to one" iff no prefix covers the extraction |
| DataReaders.SelectTierRaisesAboveTotal | evaluation/python-simulator/src/clients/data_reader_client.py:77-80 | with non-negative probabilities the selection raises iff the extraction exceeds their total, so never for an extraction in [0, 1] when they sum to 1 |
| DataReaders.DataReaderClient.constructor | evaluation/python-simulator/src/clients/data_reader_client.py:20-49 | needs single-transmission mode with a transmission, or probability mode with exactly six probabilities; keeps every field |
| DataReaders.DataReaderClient.ChooseTransmission | evaluation/python-simulator/src/clients/data_reader_client.py:62-80 | single-transmission mode always uses its transmission; probability mode uses the cable of the selected tier, and fails when the selection raises or that tier has no cable |
| DataReaders.DataReaderClient.DataProducerProcess | evaluation/python-simulator/src/clients/data_reader_client.py:54-90 | sends the bound's number of requests (every sample without a bound) unless a selection fails first. Request k goes over the cable chosen for its extraction, is fresh, carries its sampled size, and has creation and sent time equal to the clock after k+1 waits. The produced-packages counter grows by exactly the number sent and nothing else in the container changes |

## Left out

- Redis, the OpenFaaS HTTP calls, `process.env`, the clock and console output are not modelled as effects.
  - A write is a `Write` value (local, or remote to a gateway); Redis replies are parameters.
  - The infrastructure, the own location id and the deployment's area type are constructor arguments; `LOCATION_ID` is taken to be set.
  - The clock is a `now` argument.
  - `createRedisClient` and `exports.get` are not modelled.
- Promises are not modelled: a rejected or thrown promise is an `Err`, and `Promise.all` is the sequence of its writes.
- Records are stamped on values. The JavaScript assigns `location_id` on the record inside the shared infrastructure object, so later lookups see earlier stamps. The model returns stamped copies and does not capture that sharing.
- For-in over a value that is not an object iterates nothing in the model; JavaScript iterates the indices of strings and arrays, and the properties assigned on an array.
- JsValues.ReadProp: the index properties and `length` of arrays and strings are not modelled as keys. The code reads elements by index only on lists the model holds as sequences (area types, parents, statuses, camera ids), and indexes those directly.
- Hierarchy.Infrastructure: the area types are a sequence, so the entry points other than the validation (getAreaLevel, isDeploymentInputCorrect, getAllLocations, the on-board parsers and the edge database clients) take `areaTypesIdentifiers` to be an array. For a string, infrastructureParser.js:41-42 would concatenate strings and search for a substring. Only isInfrastructureJsonCorrect checks the field (infrastructureParser.js:19), and it is modelled on the raw JSON value.
- JavaScript lists integer-like keys first in ascending order. The model iterates keys in stored order, both in the hierarchy and in the frequency object of the search analytics. No order is claimed among searches of equal frequency.
- SearchAnalytics.SortByFrequency: with a NaN frequency (a search named like an Object.prototype member) the comparator returns NaN, read as 0, and the order `Array.prototype.sort` then produces is implementation-defined. The model's insertion sort treats such pairs as equal, and its order guarantee is stated only when every frequency is a count.
- `instanceof String` wrapper objects are not modelled; parsed JSON never holds them.
- `undefined` and `false` results of the validation are merged into `Verdict.Fail`, since callers only test truthiness.
- InfrastructureParser.GetAllLocations: requires `--inAreas` and `--exceptIn` to be absent or arrays. Its documentation (edge-deployer-cli/main/utils/infrastructureParser.js:108-111) takes them as arrays of strings, and the command line declares both as variadic `<areas...>` options (edge-deployer-cli/index.js:13-14), which parse to arrays. A for-of over any other value is not modelled. The command line itself only calls isInfrastructureJsonCorrect (edge-deployer-cli/main/commands/deploy.js:15).
- JsValues.IntToDecimal: states only that the digits are decimal. JavaScript's exponent notation for magnitudes of 1e21 and above is not modelled.
- The mocha tests at edge-deployer-cli/test/infrastructureParser.test.js:335-378 expect each returned `location_id` to be the area name at the `--inEvery` level ("europe", "italy", "turin", ...). The code stamps each record with its own location name (infrastructureParser.js:331), so these expectations hold only when every main-location is named like its area. The test infrastructure JSON is not part of this model, so no finding is claimed; the model follows the code.
- FrameworkEdgeDb: the edge database client looks areas up with the corrected lookup (`MainResolved`, see Findings).
- FrameworkEdgeDb: the transient `null` of `ownAreaTypeLevel` before it is computed is not modelled.
- FrameworkEdgeDb.EdgeDbClient.PerformWrite: the writes it returns do not re-check the command whitelist; `LocalAction` states that whitelist separately.
- EdgeFunctionsDb.WithDataDomain: uses the intended level check (see Findings); `ConstructAsWritten` keeps the code as written.
- Crowd statuses from Redis are strings. The first comparison of the path choice is against the number 1.001; once a status becomes the running minimum, later comparisons are between strings, in lexicographic order. The model compares reals throughout, so statuses whose decimal strings order differently from their values (such as exponent notation) are not modelled. NaN and non-numeric strings are not modelled either, in the clamp or in the path choice.
- The camera list of the path handler is the fixed list the code returns; the start and destination points are unused.
- LessCrowdedPath.FillStatuses: a camera with no stored status reads as null and gets the default 1.0. Through the main-side client, whose replies pass through `String(...)` (framework/functions-main/common/edge-db/edgeDb.js:18-19, 63), a missing key arrives as the string "null", which compares as NaN and is never picked; that path is not modelled.
- Floating point is modelled as exact real arithmetic, and 1/sqrt(2) as its double literal.
- `math.sqrt` is a parameter satisfying `IsSquareRoot`, and `statistics.stdev` is the square root of the exact sample variance.
- Random draws are parameters.
  - `Utils.get_random_positive_gaussian_value` is given as sampler functions that are never negative (its rejection loop is unbounded randomness). The two calls in one `get_cable_distance_and_delay` take separate samplers, so their results need not be related.
  - `random.uniform` extractions and waits are given as `ReadSample` values.
- The simpy engine is not modelled: core contention in evaluation/python-simulator/src/processing_units/processing_unit.py, store delivery and timeouts.
  - `Transmission.PutWithLatency` returns its delay and appends the message to the store at once.
  - `put_in_cable` calls are returned as (cable, message) pairs.
- Python `assert` checks in constructors and setters are preconditions; the AssertionError those asserts raise is not modelled. The one in `print_result` is modelled, as an error result.
- The printing in `print_result` is not modelled; only its check is.
- DataReaders.DataReaderClient.DataProducerProcess: the loop without a bound never ends in the source. The model runs it over the finite list of supplied samples.
- EdgeLocations: python-simulator/src/processing_units/edge_location.py imports a result container, a message and a cable from its own tree.
  - Its result_container.py has no `report_*` methods, and its communication and processing_unit modules are not part of this model.
  - The location is modelled against the evaluation simulator's list container, message and cable.
  - The base-class checks (cores > 0, distances > 0) come from evaluation/python-simulator/src/processing_units/processing_unit.py:17-19.
- EdgeLocations.EdgeLocation.OnDataMessageReceived: requires a stamped message, as every cable delivers one; arithmetic on unset (None) stamps is not modelled.

## Findings

| source | as written | input that shows it | evidently intended | confidence | as-written member | corrected member |
|---|---|---|---|---|---|---|
| edge-deployer-cli/main/utils/infrastructureParser.js:189 | a container's main-location is searched with the level search started at depth 0, so a locations container is walked as if it were an areas container and the keys of its records match | area types ["city"] and hierarchy {"milan": {"main-location": "redis_host", "milan001": a valid record}} validates | search from the container's own depth, so only areas and locations below it can be named | not executed | InfrastructureValidation.MainLocationSearchedFromLevelZero | InfrastructureValidation.MainLocationNamesNodeBelow |
| framework/functions-main/common/edge-db/edgeDb.js:29-34 | performActionLocally returns `String(reply)`, and getList then assigns `list[i]` on that string primitive, which throws in strict mode | any non-empty reply, e.g. ["1700000000000:hello"] | strip the score prefix from each member of the reply array | not executed | FrameworkEdgeDb.GetListAsWrittenThrows | FrameworkEdgeDb.StripScoreRoundTrip |
| functions-edge/common/edge-db/edge-db.js:68 | the level check reads the undeclared `referringAreaTypeLevel`, a ReferenceError in strict mode | any domain passing the earlier checks, e.g. referring type "country" with ttl 60000 | test `this.referringAreaTypeLevel === -1` | not executed | EdgeFunctionsDb.ConstructAsWrittenNeverSucceeds | EdgeFunctionsDb.ConstructSpec |
| functions-main/common/edge-db/onBoardInfrastructureParser.js:86-87 | for an area, its "main-location" entry (a string in any infrastructure that validates) gets `location_id` assigned, which throws in strict mode | area "france" looked up for "paris002" at the country level, where test/edgeDb.test.js:41-55 expects france's location record | the record of the location that main-location names, stamped with the area's id | not executed | MainOnBoardParser.AreaLookupAsWrittenThrows | MainOnBoardParser.AreaLookupResolved |
