/**
 * The static route-context table: built once, at construction, from the
 * records found in the data directory, then only read by exact-match
 * lookups on the normalised route.
 */
module RouteContexts {
  import opened Wrappers
  import opened Models

  /** Description of the context returned when no record matches. */
  const RetrievalDescription := "Using OpenAI Retrieval for context."

  /**
   * `route.TrimEnd('/')`: the longest prefix of `route` that does not end
   * in '/', every character cut off being a '/'.
   */
  function NormalizeRoute(route: string): (r: string)
    ensures r <= route
    ensures r == [] || r[|r| - 1] != '/'
    ensures forall i :: |r| <= i < |route| ==> route[i] == '/'
    decreases |route|
  {
    if route != [] && route[|route| - 1] == '/' then NormalizeRoute(route[..|route| - 1]) else route
  }

  /** The three properties above determine the normalised route. */
  lemma NormalizeRouteUnique(route: string, r: string)
    requires r <= route
    requires r == [] || r[|r| - 1] != '/'
    requires forall i :: |r| <= i < |route| ==> route[i] == '/'
    ensures NormalizeRoute(route) == r
  {
  }

  lemma NormalizeRouteIdempotent(route: string)
    ensures NormalizeRoute(NormalizeRoute(route)) == NormalizeRoute(route)
  {
    NormalizeRouteUnique(NormalizeRoute(route), NormalizeRoute(route));
  }

  /** Appending any number of slashes does not change the normalised route. */
  lemma NormalizeRouteIgnoresSlashes(route: string, slashes: string)
    requires forall i :: 0 <= i < |slashes| ==> slashes[i] == '/'
    ensures NormalizeRoute(route + slashes) == NormalizeRoute(route)
  {
    var n := NormalizeRoute(route);
    var extended := route + slashes;
    forall i | |n| <= i < |extended|
      ensures extended[i] == '/'
    {
      if i >= |route| {
        assert extended[i] == slashes[i - |route|];
      }
    }
    NormalizeRouteUnique(extended, n);
  }

  /** The context returned on a miss: the normalised route and nothing else. */
  function MinimalContext(route: string): RouteContext {
    RouteContext(route, RetrievalDescription, [], [], None, [])
  }

  /** One file of the data directory, after the attempt to deserialise it. */
  datatype FileRead =
    | ParseFailed                          // reading or deserialising threw; the file is skipped
    | Parsed(context: Option<RouteContext>) // `None` when the JSON is the literal `null`

  /** Whether `file` is inserted into the table under `key`. */
  predicate Stores(file: FileRead, key: string) {
    file.Parsed? && file.context.Some? && file.context.value.route != "" && file.context.value.route == key
  }

  /** One step of the loading loop: insert a usable record under its own route. */
  function InsertFile(table: map<string, RouteContext>, file: FileRead): map<string, RouteContext> {
    match file
    case Parsed(Some(context)) =>
      if context.route != "" then table[context.route := context] else table
    case _ => table
  }

  /** The loading loop over the files of the data directory, in order. */
  function InsertFiles(table: map<string, RouteContext>, files: seq<FileRead>): map<string, RouteContext>
    decreases |files|
  {
    if files == [] then table else InsertFiles(InsertFile(table, files[0]), files[1..])
  }

  /** The table after construction; `None` is a data directory that is missing. */
  function LoadedTable(dataDirectory: Option<seq<FileRead>>): map<string, RouteContext> {
    match dataDirectory
    case None => map[]
    case Some(files) => InsertFiles(map[], files)
  }

  /** A key is present exactly when it was present before or some file stores it. */
  lemma {:induction false} InsertFilesKeys(table: map<string, RouteContext>, files: seq<FileRead>, key: string)
    ensures key in InsertFiles(table, files) <==>
            key in table || exists i :: 0 <= i < |files| && Stores(files[i], key)
    decreases |files|
  {
    if files != [] {
      InsertFilesKeys(InsertFile(table, files[0]), files[1..], key);
      if exists i :: 0 <= i < |files[1..]| && Stores(files[1..][i], key) {
        var i :| 0 <= i < |files[1..]| && Stores(files[1..][i], key);
        assert Stores(files[i + 1], key);
      }
      if exists i :: 0 <= i < |files| && Stores(files[i], key) {
        var i :| 0 <= i < |files| && Stores(files[i], key);
        if i > 0 {
          assert Stores(files[1..][i - 1], key);
        }
      }
    }
  }

  /** The last file that stores a key decides its context. */
  lemma {:induction false} LastRecordWins(table: map<string, RouteContext>, files: seq<FileRead>, i: nat)
    requires i < |files| && files[i].Parsed? && files[i].context.Some?
    requires Stores(files[i], files[i].context.value.route)
    requires forall j :: i < j < |files| ==> !Stores(files[j], files[i].context.value.route)
    ensures files[i].context.value.route in InsertFiles(table, files)
    ensures InsertFiles(table, files)[files[i].context.value.route] == files[i].context.value
    decreases |files|
  {
    var key := files[i].context.value.route;
    if i == 0 {
      KeyKept(InsertFile(table, files[0]), files[1..], key);
    } else {
      forall j | i - 1 < j < |files[1..]|
        ensures !Stores(files[1..][j], key)
      {
        assert files[1..][j] == files[j + 1];
      }
      LastRecordWins(InsertFile(table, files[0]), files[1..], i - 1);
    }
  }

  /** A key that no file stores keeps whatever it had before loading. */
  lemma {:induction false} KeyKept(table: map<string, RouteContext>, files: seq<FileRead>, key: string)
    requires forall j :: 0 <= j < |files| ==> !Stores(files[j], key)
    ensures key in InsertFiles(table, files) <==> key in table
    ensures key in table ==> InsertFiles(table, files)[key] == table[key]
    decreases |files|
  {
    if files != [] {
      assert !Stores(files[0], key);
      KeyKept(InsertFile(table, files[0]), files[1..], key);
    }
  }

  /** Every key is non-empty and is the route of the context stored under it. */
  ghost predicate WellKeyed(table: map<string, RouteContext>) {
    forall key :: key in table ==> key != "" && table[key].route == key
  }

  lemma {:induction false} InsertFilesWellKeyed(table: map<string, RouteContext>, files: seq<FileRead>)
    requires WellKeyed(table)
    ensures WellKeyed(InsertFiles(table, files))
    decreases |files|
  {
    if files != [] {
      InsertFilesWellKeyed(InsertFile(table, files[0]), files[1..]);
    }
  }

  class RouteContextService {
    var routeContexts: map<string, RouteContext>

    ghost predicate Valid()
      reads this
    {
      WellKeyed(routeContexts)
    }

    /** Builds the table from the data directory (`None`: the directory is missing). */
    constructor (dataDirectory: Option<seq<FileRead>>)
      ensures Valid()
      ensures routeContexts == LoadedTable(dataDirectory)
    {
      routeContexts := map[];
      new;
      LoadRouteContexts(dataDirectory);
    }

    /**
     * Inserts every usable record of the directory into the table, in file
     * order; a file that fails to parse is skipped and loading goes on.
     */
    method LoadRouteContexts(dataDirectory: Option<seq<FileRead>>)
      requires Valid()
      modifies this
      ensures Valid()
      ensures routeContexts == match dataDirectory
                               case None => old(routeContexts)
                               case Some(files) => InsertFiles(old(routeContexts), files)
    {
      if dataDirectory.None? {
        return;
      }
      var files := dataDirectory.value;
      InsertFilesWellKeyed(routeContexts, files);
      for i := 0 to |files|
        invariant InsertFiles(routeContexts, files[i..]) == InsertFiles(old(routeContexts), files)
      {
        assert files[i..][1..] == files[i + 1..];
        match files[i]
        case Parsed(Some(context)) =>
          if context.route != "" {
            routeContexts := routeContexts[context.route := context];
          }
        case _ =>
      }
      assert files[|files|..] == [];
    }

    /** Exact match on the normalised route; a miss yields the minimal context. */
    function GetContextForRoute(route: string): (c: RouteContext)
      reads this
      ensures NormalizeRoute(route) in routeContexts ==> c == routeContexts[NormalizeRoute(route)]
      ensures NormalizeRoute(route) !in routeContexts ==> c == MinimalContext(NormalizeRoute(route))
    {
      var key := NormalizeRoute(route);
      if key in routeContexts then routeContexts[key] else MinimalContext(key)
    }
  }

  /** Whatever the lookup returns carries the normalised route. */
  lemma ContextCarriesNormalizedRoute(service: RouteContextService, route: string)
    requires service.Valid()
    ensures service.GetContextForRoute(route).route == NormalizeRoute(route)
  {
  }

  /** `r`, `r + "/"` and `r + "//"` resolve to the same context. */
  lemma LookupIgnoresTrailingSlashes(service: RouteContextService, route: string)
    ensures service.GetContextForRoute(route + "/") == service.GetContextForRoute(route)
    ensures service.GetContextForRoute(route + "//") == service.GetContextForRoute(route)
  {
    NormalizeRouteIgnoresSlashes(route, "/");
    NormalizeRouteIgnoresSlashes(route, "//");
  }

  /**
   * Keys are stored as read, not normalised: a key ending in '/' is never the
   * normalised route a lookup consults, so its record is never returned.
   */
  lemma SlashKeyUnreachable(key: string, route: string)
    requires key != [] && key[|key| - 1] == '/'
    ensures NormalizeRoute(route) != key
  {
  }
}
