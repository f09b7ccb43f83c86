/**
 The provider options of a route, stored inside its optimisation data and read back by every later
 plan change (backend/src/modules/routing/routing.service.ts).

 Dates are instants; `iso` and `parse` stand for `toISOString` and the Date constructor.
 */
module RouteOptions {
  import opened Common
  import opened Json

  datatype Mode = Driving | Walking | Cycling

  datatype Options = Options(
    mode: Mode, optimizeWaypoints: bool, avoidTolls: bool, avoidUnpaved: bool, departureTime: Option<int>,
    returnToStart: bool, locale: Option<string>)

  /** The option fields of a build request; its route date is required. */
  datatype Build = Build(
    routeDate: int, mode: Option<Mode>, optimizeWaypoints: Option<bool>, returnToStart: Option<bool>,
    locale: Option<string>)

  /** The option fields of an update, and whether it lists orders. */
  datatype Update = Update(
    ordersGiven: bool, routeDate: Option<int>, mode: Option<Mode>, optimizeWaypoints: Option<bool>,
    returnToStart: Option<bool>, locale: Option<string>)

  /** What of a route row the options are read from. */
  datatype Stored = Stored(optimizationData: Js, routeDate: int)

  function OrElse<T>(given: Option<T>, otherwise: Option<T>): Option<T> {
    if given.Some? then given else otherwise
  }

  function BuildOptions(dto: Build): Options {
    Options(Or(dto.mode, Driving), Or(dto.optimizeWaypoints, true), false, false, Some(dto.routeDate),
            Or(dto.returnToStart, false), dto.locale)
  }

  function UpdatedOptions(current: Options, dto: Update): Options {
    Options(Or(dto.mode, current.mode),
            Or(dto.optimizeWaypoints, if dto.ordersGiven then false else current.optimizeWaypoints),
            current.avoidTolls, current.avoidUnpaved, OrElse(dto.routeDate, current.departureTime),
            Or(dto.returnToStart, current.returnToStart), OrElse(dto.locale, current.locale))
  }

  function ModeText(mode: Mode): string {
    match mode
    case Driving => "driving"
    case Walking => "walking"
    case Cycling => "cycling"
  }

  function OptionsJson(options: Options, iso: int -> string): Js {
    Obj([
      Entry("mode", Str(ModeText(options.mode))),
      Entry("optimizeWaypoints", Bool(options.optimizeWaypoints)),
      Entry("avoidTolls", Bool(options.avoidTolls)),
      Entry("avoidUnpaved", Bool(options.avoidUnpaved)),
      Entry("departureTime", if options.departureTime.Some? then Str(iso(options.departureTime.value)) else Null),
      Entry("returnToStart", Bool(options.returnToStart)),
      Entry("locale", if options.locale.Some? then Str(options.locale.value) else Null)])
  }

  /** `serializeOptimizationData`; `plan` holds the entries in front of the options. */
  function Serialize(plan: seq<Entry>, options: Options, iso: int -> string): Js {
    Obj(plan + [Entry("options", OptionsJson(options, iso))])
  }

  function ReadMode(v: Js): Option<Mode> {
    if v == Str("driving") then Some(Driving)
    else if v == Str("walking") then Some(Walking)
    else if v == Str("cycling") then Some(Cycling)
    else None
  }

  function ReadBool(v: Js): Option<bool> {
    if v.Bool? then Some(v.flag) else None
  }

  function ReadText(v: Js): Option<string> {
    if v.Str? then Some(v.text) else None
  }

  function ReadDate(v: Js, parse: string -> Option<int>): Option<int> {
    if v.Str? then parse(v.text) else None
  }

  /** `extractStoredRouteOptions`. */
  function Extract(stored: Stored, parse: string -> Option<int>): Options {
    var options := Field(stored.optimizationData, "options");
    Options(
      Or(ReadMode(Field(options, "mode")), Driving),
      Or(ReadBool(Field(options, "optimizeWaypoints")), false),
      Or(ReadBool(Field(options, "avoidTolls")), false),
      Or(ReadBool(Field(options, "avoidUnpaved")), false),
      Some(Or(ReadDate(Field(options, "departureTime"), parse), stored.routeDate)),
      Or(ReadBool(Field(options, "returnToStart")), false),
      ReadText(Field(options, "locale")))
  }

  /** Parsing what `toISOString` wrote gives the instant back. */
  ghost predicate Inverse(iso: int -> string, parse: string -> Option<int>) {
    forall instant :: parse(iso(instant)) == Some(instant)
  }

  // ---- Round trip ---------------------------------------------------------------------------------------------

  lemma OptionKeys(options: Options, iso: int -> string)
    ensures DistinctKeys(OptionsJson(options, iso).entries)
  {
    var entries := OptionsJson(options, iso).entries;
    assert |entries[0].key| == 4 && |entries[1].key| == 17 && |entries[2].key| == 10 && |entries[3].key| == 12;
    assert |entries[4].key| == 13 && |entries[5].key| == 13 && |entries[6].key| == 6;
    assert entries[4].key[0] == 'd' && entries[5].key[0] == 'r';
  }

  lemma FieldsOfOptions(options: Options, iso: int -> string)
    ensures
      var v := OptionsJson(options, iso);
      && Field(v, "mode") == Str(ModeText(options.mode))
      && Field(v, "optimizeWaypoints") == Bool(options.optimizeWaypoints)
      && Field(v, "avoidTolls") == Bool(options.avoidTolls)
      && Field(v, "avoidUnpaved") == Bool(options.avoidUnpaved)
      && Field(v, "departureTime") ==
         (if options.departureTime.Some? then Str(iso(options.departureTime.value)) else Null)
      && Field(v, "returnToStart") == Bool(options.returnToStart)
      && Field(v, "locale") == (if options.locale.Some? then Str(options.locale.value) else Null)
  {
    hide Lookup, DistinctKeys;
    var entries := OptionsJson(options, iso).entries;
    OptionKeys(options, iso);
    LookupAt(entries, 0);
    LookupAt(entries, 1);
    LookupAt(entries, 2);
    LookupAt(entries, 3);
    LookupAt(entries, 4);
    LookupAt(entries, 5);
    LookupAt(entries, 6);
  }

  lemma ReadModeText(mode: Mode)
    ensures ReadMode(Str(ModeText(mode))) == Some(mode)
  {
    assert ModeText(mode)[0] == match mode case Driving => 'd' case Walking => 'w' case Cycling => 'c';
  }

  /** Everything but a missing departure time comes back; that one turns into the route date. */
  lemma Extracted(plan: seq<Entry>, options: Options, routeDate: int, iso: int -> string, parse: string -> Option<int>)
    requires Inverse(iso, parse)
    ensures
      Extract(Stored(Serialize(plan, options, iso), routeDate), parse)
      == options.(departureTime := Some(Or(options.departureTime, routeDate)))
  {
    hide Lookup, OptionsJson, ModeText, ReadMode;
    LookupAppend(plan, Entry("options", OptionsJson(options, iso)), "options");
    FieldsOfOptions(options, iso);
    ReadModeText(options.mode);
    if options.departureTime.Some? {
      var departure: int := options.departureTime.value;
      assert parse(iso(departure)) == Some(departure);
    }
    assert Field(Serialize(plan, options, iso), "options") == OptionsJson(options, iso);
  }

  /** Stored options are read back unchanged exactly if the departure time is set. */
  lemma RoundTripIff(plan: seq<Entry>, options: Options, routeDate: int, iso: int -> string,
                     parse: string -> Option<int>)
    requires Inverse(iso, parse)
    ensures
      Extract(Stored(Serialize(plan, options, iso), routeDate), parse) == options <==> options.departureTime.Some?
  {
    hide Extract, Serialize;
    Extracted(plan, options, routeDate, iso, parse);
  }

  /** Options that are missing or of another kind are read as driving, no, no, no, the route date, no and none. */
  lemma ExtractedFromAnything(stored: Stored, parse: string -> Option<int>)
    ensures
      var options, read := Field(stored.optimizationData, "options"), Extract(stored, parse);
      && (read.mode == Walking <==> Field(options, "mode") == Str("walking"))
      && (read.mode == Cycling <==> Field(options, "mode") == Str("cycling"))
      && (read.optimizeWaypoints <==> Field(options, "optimizeWaypoints") == Bool(true))
      && (read.avoidTolls <==> Field(options, "avoidTolls") == Bool(true))
      && (read.avoidUnpaved <==> Field(options, "avoidUnpaved") == Bool(true))
      && (read.returnToStart <==> Field(options, "returnToStart") == Bool(true))
      && (match Field(options, "departureTime")
          case Str(text) => (if parse(text) == None then read.departureTime == Some(stored.routeDate)
                             else read.departureTime == parse(text))
          case _ => read.departureTime == Some(stored.routeDate))
      && (match Field(options, "locale")
          case Str(text) => read.locale == Some(text)
          case _ => read.locale == None)
  {
    hide Field;
    assert "driving"[0] == 'd' && "walking"[0] == 'w' && "cycling"[0] == 'c';
  }

  // ---- The life of a route ------------------------------------------------------------------------------------

  /** The row after a build and the plan changes that followed it, each with its provider result. */
  function Life(build: Build, plan: seq<Entry>, updates: seq<(Update, seq<Entry>)>, iso: int -> string,
                parse: string -> Option<int>): Stored {
    if updates == [] then Stored(Serialize(plan, BuildOptions(build), iso), build.routeDate)
    else
      var before := Life(build, plan, updates[..|updates| - 1], iso, parse);
      var (dto, result) := updates[|updates| - 1];
      Stored(Serialize(result, UpdatedOptions(Extract(before, parse), dto), iso), Or(dto.routeDate, before.routeDate))
  }

  /** The last value given, or else the first one. */
  function Latest<T>(first: T, given: seq<Option<T>>): T {
    if given == [] then first
    else if given[|given| - 1].Some? then given[|given| - 1].value
    else Latest(first, given[..|given| - 1])
  }

  function Given<T>(updates: seq<(Update, seq<Entry>)>, read: Update -> Option<T>): (r: seq<Option<T>>)
    ensures |r| == |updates| && forall i :: 0 <= i < |r| ==> r[i] == read(updates[i].0)
  {
    seq(|updates|, i requires 0 <= i < |updates| => read(updates[i].0))
  }

  lemma LatestStep<T>(first: T, updates: seq<(Update, seq<Entry>)>, read: Update -> Option<T>)
    requires updates != []
    ensures
      Latest(first, Given(updates, read))
      == Or(read(updates[|updates| - 1].0), Latest(first, Given(updates[..|updates| - 1], read)))
  {
    assert Given(updates, read)[..|updates| - 1] == Given(updates[..|updates| - 1], read);
  }

  /** An explicit choice, or no further optimisation once orders are listed by hand. */
  function Waypoints(dto: Update): Option<bool> {
    if dto.optimizeWaypoints.Some? then dto.optimizeWaypoints else if dto.ordersGiven then Some(false) else None
  }

  function Locale(dto: Update): Option<Option<string>> {
    if dto.locale.Some? then Some(dto.locale) else None
  }

  /** The options a plan change works with, in terms of the requests alone. */
  function Wanted(build: Build, updates: seq<(Update, seq<Entry>)>): Options {
    Options(
      Latest(Or(build.mode, Driving), Given(updates, (u: Update) => u.mode)),
      Latest(Or(build.optimizeWaypoints, true), Given(updates, Waypoints)),
      false,
      false,
      Some(Latest(build.routeDate, Given(updates, (u: Update) => u.routeDate))),
      Latest(Or(build.returnToStart, false), Given(updates, (u: Update) => u.returnToStart)),
      Latest(build.locale, Given(updates, Locale)))
  }

  lemma WantedStep(build: Build, updates: seq<(Update, seq<Entry>)>)
    requires updates != []
    ensures
      Wanted(build, updates)
      == UpdatedOptions(Wanted(build, updates[..|updates| - 1]), updates[|updates| - 1].0)
  {
    hide Latest, Given;
    LatestStep(Or(build.mode, Driving), updates, (u: Update) => u.mode);
    LatestStep(Or(build.optimizeWaypoints, true), updates, Waypoints);
    LatestStep(build.routeDate, updates, (u: Update) => u.routeDate);
    LatestStep(Or(build.returnToStart, false), updates, (u: Update) => u.returnToStart);
    LatestStep(build.locale, updates, Locale);
  }

  /**
   After any build and plan changes, the stored options hold for each field the last value asked for,
   and the departure time is the route date: the fallbacks of reading back never come into play.
   */
  lemma {:induction false} OptionsFollowTheRequests(build: Build, plan: seq<Entry>, updates: seq<(Update, seq<Entry>)>,
                                                    iso: int -> string, parse: string -> Option<int>)
    requires Inverse(iso, parse)
    ensures
      var stored := Life(build, plan, updates, iso, parse);
      Extract(stored, parse) == Wanted(build, updates) && Wanted(build, updates).departureTime == Some(stored.routeDate)
    decreases |updates|
  {
    hide Extract, Serialize, Inverse;
    if updates == [] {
      Extracted(plan, BuildOptions(build), build.routeDate, iso, parse);
    } else {
      var front := updates[..|updates| - 1];
      OptionsFollowTheRequests(build, plan, front, iso, parse);
      WantedStep(build, updates);
      var before := Life(build, plan, front, iso, parse);
      var (dto, result) := updates[|updates| - 1];
      Extracted(result, UpdatedOptions(Extract(before, parse), dto), Or(dto.routeDate, before.routeDate), iso, parse);
    }
  }
}
