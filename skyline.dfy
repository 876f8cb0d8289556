/** The generation pipeline of cmd/skyline/skyline.go: resolve the user and
    the year range, fetch one contribution grid per year, print an ASCII
    preview per year, then hand the grids to the STL generator.

    The GitHub client, the logger, the ASCII generator and the STL
    generator are not part of this model; they are the function-valued
    fields of `Client` and `Env`, each returning a result or an error.
    What `GenerateSkyline` prints is returned as one preview per year
    (`None` where the ASCII generator failed and a warning was logged), and
    the call it makes to the STL generator is returned as a `StlRequest`. */
module Skyline {
  import opened Errors
  import opened Strs
  import opened Utils

  datatype ContributionDay = ContributionDay(contributionCount: int, date: string)

  type Week = seq<ContributionDay>

  /** One year of contributions: a sequence of weeks. */
  type Grid = seq<Week>

  datatype ResponseWeek = ResponseWeek(contributionDays: seq<ContributionDay>)

  /** The part of the API response that the pipeline reads. */
  datatype ContributionsResponse = ContributionsResponse(login: string, totalContributions: int, weeks: seq<ResponseWeek>)

  /** The GitHub client's three queries. */
  datatype Client = Client(
    authenticatedUser: Result<string>,
    userJoinYear: string -> Result<int>,
    fetchContributions: (string, int) -> Result<ContributionsResponse>)

  /** The call made to the STL generator. */
  datatype StlRequest =
    | Single(grid: Grid, path: string, user: string, year: int)
    | Range(grids: seq<Grid>, path: string, user: string, startYear: int, endYear: int)

  /** Everything outside the pipeline that it talks to. */
  datatype Env = Env(
    initializeClient: Result<Client>,
    /** the result of the debug message logged when no user is given */
    debugLog: Option<Error>,
    /** the result of logging "Failed to generate ASCII preview" with an error */
    warningLog: Error -> Option<Error>,
    /** `ascii.GenerateASCII(grid, user, year, includeHeader, includeFooter)` */
    generateAscii: (Grid, string, int, bool, bool) -> Result<string>,
    generateStl: StlRequest -> Option<Error>,
    currentYear: int,
    emptyBlock: char,
    foundationLow: char)

  // ---------------------------------------------------------------------
  // Response to grid

  /** `grid` holds the response's weeks, each week's days unchanged and in
      order. */
  predicate IsGridOf(grid: Grid, response: ContributionsResponse)
  {
    |grid| == |response.weeks|
    && forall i :: 0 <= i < |grid| ==> grid[i] == response.weeks[i].contributionDays
  }

  /** The grid of `year` fetched for `user` is `grid`. */
  predicate Fetched(client: Client, user: string, year: int, grid: Grid)
  {
    client.fetchContributions(user, year).Ok? && IsGridOf(grid, client.fetchContributions(user, year).value)
  }

  /** `fetchContributionData`: fetch one year and copy its weeks into a
      grid of the same size; a fetch error comes back wrapped. */
  method FetchContributionData(client: Client, username: string, year: int) returns (r: Result<Grid>)
    ensures client.fetchContributions(username, year).Err? ==>
      r == Err(Wrapped("failed to fetch contributions", client.fetchContributions(username, year).error))
    ensures client.fetchContributions(username, year).Ok? ==> r.Ok? && Fetched(client, username, year, r.value)
  {
    var response := client.fetchContributions(username, year);
    if response.Err? {
      return Err(Wrapped("failed to fetch contributions", response.error));
    }
    var weeks := response.value.weeks;
    var contributionGrid := new Week[|weeks|];
    for i := 0 to |weeks|
      invariant forall k :: 0 <= k < i ==> contributionGrid[k] == weeks[k].contributionDays
    {
      contributionGrid[i] := weeks[i].contributionDays;
    }
    return Ok(contributionGrid[..]);
  }

  // ---------------------------------------------------------------------
  // Header stripping for the years after the first

  /** A line that belongs to the grid: it holds an empty block or a
      low foundation block and is not made only of empty blocks. */
  predicate IsGridLine(line: string, emptyBlock: char, foundationLow: char)
  {
    (emptyBlock in line || foundationLow in line) && Trim(line, emptyBlock) != []
  }

  /** The index of the first grid line, if there is one. */
  function FirstGridLine(lines: seq<string>, emptyBlock: char, foundationLow: char): (r: Option<nat>)
    ensures r.Some? ==>
      && r.value < |lines|
      && IsGridLine(lines[r.value], emptyBlock, foundationLow)
      && forall j :: 0 <= j < r.value ==> !IsGridLine(lines[j], emptyBlock, foundationLow)
    ensures r.None? ==> forall j :: 0 <= j < |lines| ==> !IsGridLine(lines[j], emptyBlock, foundationLow)
  {
    if lines == [] then None
    else if IsGridLine(lines[0], emptyBlock, foundationLow) then Some(0)
    else match FirstGridLine(lines[1..], emptyBlock, foundationLow)
      case None => None
      case Some(k) => Some(k + 1)
  }

  /** Where the printed part of a later year's preview starts: the first
      grid line, or 0 when no line qualifies. */
  function GridStart(lines: seq<string>, emptyBlock: char, foundationLow: char): (g: nat)
    ensures |lines| > 0 ==> g < |lines|
  {
    match FirstGridLine(lines, emptyBlock, foundationLow)
    case None => 0
    case Some(i) => i
  }

  /** The scan of skyline.go for `gridStart`, stopping at the first grid
      line. */
  method FindGridStart(lines: seq<string>, emptyBlock: char, foundationLow: char) returns (gridStart: nat)
    ensures gridStart == GridStart(lines, emptyBlock, foundationLow)
  {
    gridStart := 0;
    var i := 0;
    while i < |lines|
      invariant 0 <= i <= |lines|
      invariant forall j :: 0 <= j < i ==> !IsGridLine(lines[j], emptyBlock, foundationLow)
    {
      var line := lines[i];
      var containsEmptyBlock := emptyBlock in line;
      var containsFoundationLow := foundationLow in line;
      var isNotOnlyEmptyBlocks := Trim(line, emptyBlock) != [];
      if (containsEmptyBlock || containsFoundationLow) && isNotOnlyEmptyBlocks {
        gridStart := i;
        break;
      }
      i := i + 1;
    }
  }

  /** The text printed for a later year: the lines from `gridStart` on,
      joined again with newlines, which is a suffix of the art. */
  function StripHeader(art: string, emptyBlock: char, foundationLow: char): (r: string)
    ensures |r| <= |art| && r == art[|art| - |r|..]
  {
    var lines := Split(art, '\n');
    var g := GridStart(lines, emptyBlock, foundationLow);
    JoinSplit(art, '\n');
    JoinSuffix(lines, g, '\n');
    Join(lines[g..], '\n')
  }

  /** Stripping only drops whole leading lines: the art is the dropped
      lines, a newline and the result, or the result alone when nothing is
      dropped; when a grid line exists, the result starts with it. */
  lemma StripHeaderDropsLeadingLines(art: string, emptyBlock: char, foundationLow: char)
    ensures var lines := Split(art, '\n');
      var g := GridStart(lines, emptyBlock, foundationLow);
      var r := StripHeader(art, emptyBlock, foundationLow);
      && (g == 0 ==> r == art)
      && (g > 0 ==> art == Join(lines[..g], '\n') + "\n" + r)
      && (FirstGridLine(lines, emptyBlock, foundationLow).Some? ==>
            IsGridLine(Split(r, '\n')[0], emptyBlock, foundationLow))
  {
    var lines := Split(art, '\n');
    var g := GridStart(lines, emptyBlock, foundationLow);
    JoinSplit(art, '\n');
    if g > 0 {
      JoinAppend(lines[..g], lines[g..], '\n');
      assert lines[..g] + lines[g..] == lines;
    } else {
      assert lines[g..] == lines;
    }
    SplitJoin(lines[g..], '\n');
  }

  // ---------------------------------------------------------------------
  // The year loop

  /** Number of years from `startYear` to `endYear` inclusive. */
  function YearCount(startYear: int, endYear: int): nat
  {
    if startYear <= endYear then endYear - startYear + 1 else 0
  }

  /** The ASCII art of one year: with a header only for the first year and
      unless art-only, with a footer unless art-only. */
  function AsciiFor(env: Env, grid: Grid, user: string, startYear: int, year: int, artOnly: bool): Result<string>
  {
    env.generateAscii(grid, user, year, year == startYear && !artOnly, !artOnly)
  }

  /** What is printed for one year: nothing if the ASCII generator failed,
      the whole art for the first year, the art without its header lines for
      later years. */
  function YearPreview(env: Env, grid: Grid, user: string, startYear: int, year: int, artOnly: bool): Option<string>
  {
    match AsciiFor(env, grid, user, startYear, year, artOnly)
    case Err(_) => None
    case Ok(art) => Some(if year == startYear then art else StripHeader(art, env.emptyBlock, env.foundationLow))
  }

  /** The ASCII failure of a year was only warned about: the warning itself
      succeeded. */
  predicate WarnedOnly(env: Env, grid: Grid, user: string, startYear: int, year: int, artOnly: bool)
  {
    var art := AsciiFor(env, grid, user, startYear, year, artOnly);
    art.Err? && env.warningLog(art.error).None?
  }

  /** `preview` is what was printed for `year`, and a year without a
      preview had its ASCII failure only warned about. */
  predicate Previewed(env: Env, grid: Grid, user: string, startYear: int, year: int, artOnly: bool,
                      preview: Option<string>)
  {
    && preview == YearPreview(env, grid, user, startYear, year, artOnly)
    && (preview.None? ==> WarnedOnly(env, grid, user, startYear, year, artOnly))
  }

  /** The years done so far: the grid of year `startYear + i` is `all[i]`
      and `previews[i]` is what was printed for it. */
  predicate YearsDone(env: Env, client: Client, user: string, startYear: int, artOnly: bool,
                      all: seq<Grid>, previews: seq<Option<string>>)
  {
    && |previews| <= |all|
    && (forall i :: 0 <= i < |all| ==> Fetched(client, user, startYear + i, all[i]))
    && (forall i :: 0 <= i < |previews| ==> Previewed(env, all[i], user, startYear, startYear + i, artOnly, previews[i]))
  }

  /** One more year done keeps the record of the years done. */
  lemma YearsDoneSnoc(env: Env, client: Client, user: string, startYear: int, artOnly: bool,
                      all: seq<Grid>, previews: seq<Option<string>>, grid: Grid, preview: Option<string>)
    requires YearsDone(env, client, user, startYear, artOnly, all, previews) && |previews| == |all|
    requires Fetched(client, user, startYear + |all|, grid)
    requires Previewed(env, grid, user, startYear, startYear + |all|, artOnly, preview)
    ensures YearsDone(env, client, user, startYear, artOnly, all + [grid], previews + [preview])
  {
    var all', previews' := all + [grid], previews + [preview];
    forall i | 0 <= i < |all'|
      ensures Fetched(client, user, startYear + i, all'[i])
    {
      if i < |all| { assert all'[i] == all[i]; }
    }
    forall i | 0 <= i < |previews'|
      ensures Previewed(env, all'[i], user, startYear, startYear + i, artOnly, previews'[i])
    {
      if i < |previews| { assert all'[i] == all[i] && previews'[i] == previews[i]; }
    }
  }

  /** The loop over the years: one fetched grid per year in increasing year
      order, one preview per year; a fetch error or a failed warning ends
      the loop with that error, an ASCII error alone does not. */
  method YearLoop(env: Env, client: Client, user: string, startYear: int, endYear: int, artOnly: bool)
    returns (err: Option<Error>, all: seq<Grid>, previews: seq<Option<string>>)
    ensures |all| <= YearCount(startYear, endYear)
    ensures YearsDone(env, client, user, startYear, artOnly, all, previews)
    ensures err.None? ==> |all| == YearCount(startYear, endYear) && |previews| == |all|
    ensures err.Some? && |previews| == |all| ==>
      && |all| < YearCount(startYear, endYear)
      && client.fetchContributions(user, startYear + |all|).Err?
      && err == Some(Wrapped("failed to fetch contributions", client.fetchContributions(user, startYear + |all|).error))
    ensures err.Some? && |previews| < |all| ==>
      && |previews| + 1 == |all|
      && var art := AsciiFor(env, all[|previews|], user, startYear, startYear + |previews|, artOnly);
         art.Err? && err == env.warningLog(art.error)
  {
    err, all, previews := None, [], [];
    var year := startYear;
    while year <= endYear
      invariant year == startYear + |all|
      invariant |all| <= YearCount(startYear, endYear)
      invariant |all| < YearCount(startYear, endYear) ==> year <= endYear
      invariant |previews| == |all|
      invariant YearsDone(env, client, user, startYear, artOnly, all, previews)
      invariant year > endYear ==> |all| == YearCount(startYear, endYear)
    {
      var contributions := FetchContributionData(client, user, year);
      if contributions.Err? {
        err := Some(contributions.error);
        return;
      }
      var grid := contributions.value;
      var asciiArt := env.generateAscii(grid, user, year, year == startYear && !artOnly, !artOnly);
      var preview: Option<string>;
      if asciiArt.Err? {
        var warnErr := env.warningLog(asciiArt.error);
        if warnErr.Some? {
          all := all + [grid];
          err := warnErr;
          return;
        }
        preview := None;
      } else if year == startYear {
        preview := Some(asciiArt.value);
      } else {
        var lines := Split(asciiArt.value, '\n');
        var gridStart := FindGridStart(lines, env.emptyBlock, env.foundationLow);
        preview := Some(Join(lines[gridStart..], '\n'));
      }
      YearsDoneSnoc(env, client, user, startYear, artOnly, all, previews, grid, preview);
      all, previews := all + [grid], previews + [preview];
      year := year + 1;
    }
  }

  // ---------------------------------------------------------------------
  // GenerateSkyline

  /** The user and year range the pipeline settles on before the loop. */
  datatype Resolved = Resolved(client: Client, user: string, startYear: int, endYear: int)

  /** The user the pipeline works for: the given one, or else the
      authenticated user once the debug message is logged. */
  function TargetUser(client: Client, debugLog: Option<Error>, targetUser: string): (r: Result<string>)
    ensures targetUser != [] ==> r == Ok(targetUser)
    ensures targetUser == [] && debugLog.Some? ==> r == Err(debugLog.value)
    ensures targetUser == [] && debugLog.None? && client.authenticatedUser.Err? ==>
      r == Err(Kinded(NetworkError, "failed to get authenticated user", Some(client.authenticatedUser.error)))
    ensures targetUser == [] && debugLog.None? && client.authenticatedUser.Ok? ==> r == client.authenticatedUser
  {
    if targetUser != [] then Ok(targetUser)
    else if debugLog.Some? then Err(debugLog.value)
    else match client.authenticatedUser
      case Err(e) => Err(Kinded(NetworkError, "failed to get authenticated user", Some(e)))
      case Ok(u) => Ok(u)
  }

  /** Client initialisation, the default user and the full-lifetime range
      (skyline.go before the year loop). */
  function Resolve(env: Env, startYear: int, endYear: int, targetUser: string, full: bool): (r: Result<Resolved>)
    ensures env.initializeClient.Err? ==>
      r == Err(Kinded(NetworkError, "failed to initialize GitHub client", Some(env.initializeClient.error)))
    ensures env.initializeClient.Ok? ==>
      var client := env.initializeClient.value;
      var user := TargetUser(client, env.debugLog, targetUser);
      && (user.Err? ==> r == Err(user.error))
      && (user.Ok? && !full ==> r == Ok(Resolved(client, user.value, startYear, endYear)))
      && (user.Ok? && full && client.userJoinYear(user.value).Err? ==>
            r == Err(Kinded(NetworkError, "failed to get user join year", Some(client.userJoinYear(user.value).error))))
      && (user.Ok? && full && client.userJoinYear(user.value).Ok? ==>
            r == Ok(Resolved(client, user.value, client.userJoinYear(user.value).value, env.currentYear)))
  {
    match env.initializeClient
    case Err(e) => Err(Kinded(NetworkError, "failed to initialize GitHub client", Some(e)))
    case Ok(client) =>
      var user :- TargetUser(client, env.debugLog, targetUser);
      if !full then Ok(Resolved(client, user, startYear, endYear))
      else match client.userJoinYear(user)
        case Err(e) => Err(Kinded(NetworkError, "failed to get user join year", Some(e)))
        case Ok(joinYear) => Ok(Resolved(client, user, joinYear, env.currentYear))
  }

  /** The STL call: one grid goes to `GenerateSTL`, any other number to
      `GenerateSTLRange`. */
  function StlDispatch(all: seq<Grid>, path: string, user: string, startYear: int, endYear: int): (r: StlRequest)
    ensures r.Single? <==> |all| == 1
    ensures r.Single? ==> r.grid == all[0] && r.year == startYear
    ensures r.Range? ==> r.grids == all && r.startYear == startYear && r.endYear == endYear
    ensures r.path == path && r.user == user
  {
    if |all| == 1 then Single(all[0], path, user, startYear)
    else Range(all, path, user, startYear, endYear)
  }

  /** With every year fetched, the single-year STL call is made exactly
      when the range is one year. */
  lemma DispatchSingleIffOneYear(all: seq<Grid>, path: string, user: string, startYear: int, endYear: int)
    requires |all| == YearCount(startYear, endYear)
    ensures StlDispatch(all, path, user, startYear, endYear).Single? <==> startYear == endYear
  {
  }

  /** `GenerateSkyline`. Its previews are what it prints, `stl` the call it
      makes to the STL generator, `grids` (for the contract only) the grids
      it fetched. */
  method GenerateSkyline(env: Env, startYear: int, endYear: int, targetUser: string, full: bool, output: string, artOnly: bool)
    returns (err: Option<Error>, previews: seq<Option<string>>, stl: Option<StlRequest>, ghost grids: seq<Grid>)
    ensures Resolve(env, startYear, endYear, targetUser, full).Err? ==>
      err == Some(Resolve(env, startYear, endYear, targetUser, full).error) && previews == [] && stl.None?
    ensures artOnly ==> stl.None?
    ensures stl.Some? ==> err == env.generateStl(stl.value)
    ensures Resolve(env, startYear, endYear, targetUser, full).Ok? ==>
      var rv := Resolve(env, startYear, endYear, targetUser, full).value;
      && |grids| <= YearCount(rv.startYear, rv.endYear)
      && YearsDone(env, rv.client, rv.user, rv.startYear, artOnly, grids, previews)
      && (!artOnly && stl.None? ==> err.Some?)
      && (artOnly && err.None? ==> |previews| == YearCount(rv.startYear, rv.endYear))
      && (stl.Some? ==>
            && |previews| == |grids| == YearCount(rv.startYear, rv.endYear)
            && stl.value == StlDispatch(grids, GenerateOutputFilename(rv.user, rv.startYear, rv.endYear, output),
                                        rv.user, rv.startYear, rv.endYear))
      && (|previews| == |grids| == YearCount(rv.startYear, rv.endYear) ==>
            (artOnly ==> err.None?) && (!artOnly ==> stl.Some?))
      && (|previews| == |grids| < YearCount(rv.startYear, rv.endYear) ==>
            && rv.client.fetchContributions(rv.user, rv.startYear + |grids|).Err?
            && err == Some(Wrapped("failed to fetch contributions",
                                   rv.client.fetchContributions(rv.user, rv.startYear + |grids|).error)))
      && (|previews| < |grids| ==>
            var art := AsciiFor(env, grids[|previews|], rv.user, rv.startYear, rv.startYear + |previews|, artOnly);
            art.Err? && err == env.warningLog(art.error))
  {
    previews, stl, grids := [], None, [];
    var resolved := Resolve(env, startYear, endYear, targetUser, full);
    if resolved.Err? {
      return Some(resolved.error), previews, stl, grids;
    }
    var rv := resolved.value;
    var loopErr, all, shown := YearLoop(env, rv.client, rv.user, rv.startYear, rv.endYear, artOnly);
    previews, grids := shown, all;
    if loopErr.Some? {
      return loopErr, previews, stl, grids;
    }
    if !artOnly {
      var outputPath := GenerateOutputFilename(rv.user, rv.startYear, rv.endYear, output);
      var request := StlDispatch(all, outputPath, rv.user, rv.startYear, rv.endYear);
      stl := Some(request);
      err := env.generateStl(request);
      return;
    }
    err := None;
  }
}
