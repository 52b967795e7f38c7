/** The `download` and `resume` commands (dload.go): argument checks, the
    download summary, and the coordination of a video item with its audio
    child through to the compile step. */
module Dload {
  import opened Wrappers
  import opened Text
  import Warp

  const NoUrl := "no url provided"
  const NoHash := "no hash provided"
  const Initiating := ">> Initiating a WARP download << "

  // ---------------------------------------------------------------------
  // Argument checks shared by download and resume

  datatype ArgCheck = Respond(effects: seq<Warp.Effect>) | Proceed

  /** The first argument `arg` of the command `cmdName` ("" at the root);
      `missing` is the error for an empty argument. */
  function CheckArg(arg: string, cmdName: string, missing: string): (r: ArgCheck)
    ensures r.Proceed? <==> arg != "" && arg != "help"
    ensures arg == "help" ==> r == Respond([Warp.ShowCommandHelp(cmdName)])
  {
    if arg == "" then
      if cmdName == "" then Respond(Warp.Help(arg))
      else Respond(Warp.PrintErrWithCmdHelp(arg, cmdName, Some(missing)))
    else if arg == "help" then Respond([Warp.ShowCommandHelp(cmdName)])
    else Proceed
  }

  /** At the root an empty argument shows the app help. */
  lemma EmptyArgAtRoot(missing: string)
    ensures CheckArg("", "", missing).Respond?
    ensures Warp.ShowAppHelp(0) in CheckArg("", "", missing).effects
  {
  }

  /** Under a subcommand an empty argument prints "no url provided" or
      "no hash provided" and then that command's help, nothing else. */
  lemma EmptyArgInCommand(cmdName: string, missing: string)
    requires cmdName != "" && (missing == NoUrl || missing == NoHash)
    ensures CheckArg("", cmdName, missing)
         == Respond([Warp.PrintText(Warp.HelpName + ": " + missing + "\n\n"), Warp.ShowCommandHelp(cmdName)])
  {
    assert ToLower(missing) == missing;
    assert |missing| != |Warp.HelpRequested|;
    assert forall j :: 0 <= j < |missing| ==> missing[j] != "-v"[0];
    AbsentCharNotContained(missing, "-v");
  }

  // ---------------------------------------------------------------------
  // The summary printed before the transfer starts

  const InfoHead := "\nDownload Info\nName\t\t: "
  const SizeLabel := "\nSize\t\t: "
  const LocationLabel := "\nSave Location\t: "
  const ConnsLabel := "/\nMax Connections\t: "

  /** The "Download Info" block: the heading and name, the size, the save
      location followed by "/", the connection limit and a newline, then the
      "Max Segments" line only when a segment limit was given. */
  function InfoText(name: string, size: string, location: string, maxConns: int, maxParts: int): (r: string)
    ensures |r| > |InfoHead| + |name| && r[..|InfoHead|] == InfoHead
    ensures OccursAt(r, name, |InfoHead|)
    ensures r[|r| - 1] == '\n'
  {
    var seg := SegmentsLine(maxParts);
    var r := InfoHead + name + SizeLabel + size + LocationLabel + location + ConnsLabel + Decimal(maxConns) + "\n" + seg;
    PartsLayout(InfoHead + name, SizeLabel, size, LocationLabel, location, ConnsLabel, Decimal(maxConns), "\n", seg);
    PrefixPart(r, InfoHead, name);
    r
  }

  /** Every line of the summary, in order: after the heading and the name
      come the size, the save location with its "/", the connection limit,
      and a newline followed by the optional "Max Segments" line. */
  lemma InfoLayout(name: string, size: string, location: string, maxConns: int, maxParts: int)
    ensures var r := InfoText(name, size, location, maxConns, maxParts);
      var b := |InfoHead + name|;
      && OccursAt(r, SizeLabel, b)
      && OccursAt(r, size, b + |SizeLabel|)
      && OccursAt(r, LocationLabel, b + |SizeLabel| + |size|)
      && OccursAt(r, location, b + |SizeLabel| + |size| + |LocationLabel|)
      && OccursAt(r, ConnsLabel, b + |SizeLabel| + |size| + |LocationLabel| + |location|)
      && OccursAt(r, Decimal(maxConns), b + |SizeLabel| + |size| + |LocationLabel| + |location| + |ConnsLabel|)
      && r[b + |SizeLabel| + |size| + |LocationLabel| + |location| + |ConnsLabel| + |Decimal(maxConns)|..]
         == "\n" + SegmentsLine(maxParts)
  {
    PartsLayout(InfoHead + name, SizeLabel, size, LocationLabel, location, ConnsLabel, Decimal(maxConns),
                "\n", SegmentsLine(maxParts));
    assert InfoText(name, size, location, maxConns, maxParts)
        == InfoHead + name + SizeLabel + size + LocationLabel + location + ConnsLabel + Decimal(maxConns)
           + "\n" + SegmentsLine(maxParts);
  }

  /** The "Max Segments" line, present only for a segment limit. */
  function SegmentsLine(maxParts: int): (r: string)
    ensures maxParts == 0 <==> r == ""
    ensures r != "" ==> r[|r| - 1] == '\n'
  {
    if maxParts != 0 then "Max Segments\t: " + Decimal(maxParts) + "\n" else ""
  }

  /** The summary is the plain one exactly when maxParts is 0; otherwise it
      is the plain one followed by the "Max Segments" line. */
  lemma MaxSegmentsLine(name: string, size: string, location: string, maxConns: int, maxParts: int)
    ensures maxParts == 0 <==>
      InfoText(name, size, location, maxConns, maxParts) == InfoText(name, size, location, maxConns, 0)
    ensures maxParts != 0 ==>
      InfoText(name, size, location, maxConns, maxParts)
        == InfoText(name, size, location, maxConns, 0) + "Max Segments\t: " + Decimal(maxParts) + "\n"
  {
    var txt := InfoHead + name + SizeLabel + size + LocationLabel + location + ConnsLabel + Decimal(maxConns) + "\n";
    var seg := SegmentsLine(maxParts);
    var plain := InfoText(name, size, location, maxConns, 0);
    var full := InfoText(name, size, location, maxConns, maxParts);
    assert SegmentsLine(0) == "";
    assert plain == txt + "" == txt;
    assert full == txt + seg;
    if maxParts != 0 {
      assert |full| == |plain| + |seg| > |plain|;
    }
  }

  const EmptyFileName := "file name cannot be empty"

  /** What NewDownloader reports back to download. */
  datatype Created = Created(fileName: string, contentLength: string, downloadDirectory: string)

  /** download(ctx) up to the start of the transfer, for a URL that is not
      a video with a separate audio stream.  `created` is the result of
      warplib.NewDownloader. */
  function Download(arg: string, cmdName: string, managerErr: Option<string>,
                    created: Result<Created, string>, maxConns: int, maxParts: int): (r: seq<Warp.Effect>)
    ensures CheckArg(arg, cmdName, NoUrl).Respond? ==> r == CheckArg(arg, cmdName, NoUrl).effects
    ensures CheckArg(arg, cmdName, NoUrl).Proceed? ==>
      && |r| == 2 && r[0] == Warp.PrintText(Initiating + "\n")
      && (managerErr.Some? ==> r[1] == Warp.RuntimeError("info", managerErr.value))
      && (managerErr.None? && created.Failure? ==> r[1] == Warp.RuntimeError("info", created.error))
      && (managerErr.None? && created.Success? && created.value.fileName == "" ==>
            r[1] == Warp.RuntimeError("info", EmptyFileName))
      && (managerErr.None? && created.Success? && created.value.fileName != "" ==>
            r[1] == Warp.PrintText(InfoText(created.value.fileName, created.value.contentLength,
                                            created.value.downloadDirectory, maxConns, maxParts) + "\n"))
  {
    match CheckArg(arg, cmdName, NoUrl)
    case Respond(effects) => effects
    case Proceed =>
      [Warp.PrintText(Initiating + "\n")]
      + if managerErr.Some? then [Warp.RuntimeError("info", managerErr.value)]
        else match created
          case Failure(e) => [Warp.RuntimeError("info", e)]
          case Success(d) =>
            if d.fileName == "" then [Warp.RuntimeError("info", EmptyFileName)]
            else [Warp.PrintText(InfoText(d.fileName, d.contentLength, d.downloadDirectory, maxConns, maxParts) + "\n")]
  }

  // ---------------------------------------------------------------------
  // Items and their resolution

  /** The fields of warplib.Item that resume reads. */
  datatype Item = Item(
    hash: string, name: string, totalSize: int, downloaded: int, childHash: string,
    absoluteLocation: string, downloadLocation: string, savePath: string)

  /** A primary item with its optional child (the audio stream). */
  datatype Pair = Pair(primary: Item, child: Option<Item>)

  /** A failed m.ResumeDownload, with the step name printRuntimeErr shows. */
  datatype ResolveError = ResolveError(step: string, msg: string)

  /** m.ResumeDownload for the hash, then for the child hash when the
      primary item has one. */
  function ResolvePair(hash: string, resolve: string -> Result<Item, string>): (r: Result<Pair, ResolveError>)
    ensures r.Success? <==>
      resolve(hash).Success? &&
      (resolve(hash).value.childHash != "" ==> resolve(resolve(hash).value.childHash).Success?)
    ensures r.Success? ==>
      && r.value.primary == resolve(hash).value
      && (r.value.child.Some? <==> r.value.primary.childHash != "")
      && (r.value.child.Some? ==> r.value.child.value == resolve(r.value.primary.childHash).value)
    ensures resolve(hash).Failure? ==> r == Failure(ResolveError("resume", resolve(hash).error))
    ensures resolve(hash).Success? && r.Failure? ==>
      r.error == ResolveError("secondary-resume", resolve(resolve(hash).value.childHash).error)
  {
    match resolve(hash)
    case Failure(e) => Failure(ResolveError("resume", e))
    case Success(item) =>
      if item.childHash == "" then Success(Pair(item, None))
      else
        match resolve(item.childHash)
        case Failure(e) => Failure(ResolveError("secondary-resume", e))
        case Success(c) => Success(Pair(item, Some(c)))
  }

  /** The m.ResumeDownload calls, in order: one for the hash, a second
      for the child hash when the primary item resolved and names one. */
  function ResolveCalls(hash: string, resolve: string -> Result<Item, string>): (cs: seq<Call>)
    ensures |cs| >= 1 && cs[0] == ResumeDownloadCall(hash)
    ensures |cs| == 2 <==> resolve(hash).Success? && resolve(hash).value.childHash != ""
    ensures |cs| <= 2
    ensures |cs| == 2 ==> cs[1] == ResumeDownloadCall(resolve(hash).value.childHash)
  {
    match resolve(hash)
    case Failure(_) => [ResumeDownloadCall(hash)]
    case Success(item) =>
      if item.childHash == "" then [ResumeDownloadCall(hash)]
      else [ResumeDownloadCall(hash), ResumeDownloadCall(item.childHash)]
  }

  /** The size shown in the summary: the primary's total plus the child's. */
  function ReportedSize(p: Pair): (size: int)
    ensures forall childLast :: size == SumTotals(Order(p, childLast))
  {
    SizeOfRuns(p);
    p.primary.totalSize + (if p.child.Some? then p.child.value.totalSize else 0)
  }

  /** The total sizes of the items that resume runs, added up. */
  function SumTotals(items: seq<Item>): int
  {
    if items == [] then 0 else items[0].totalSize + SumTotals(items[1..])
  }

  lemma SizeOfRuns(p: Pair)
    ensures forall childLast ::
      SumTotals(Order(p, childLast)) == p.primary.totalSize + (if p.child.Some? then p.child.value.totalSize else 0)
  {
    forall childLast: bool
      ensures SumTotals(Order(p, childLast)) == p.primary.totalSize + (if p.child.Some? then p.child.value.totalSize else 0)
    {
      if p.child.Some? {
        var c := p.child.value;
        assert Order(p, childLast) == if childLast then [p.primary, c] else [c, p.primary];
        SumTotalsPair(p.primary, c);
      } else {
        assert [p.primary][1..] == [];
      }
    }
  }

  lemma SumTotalsPair(a: Item, b: Item)
    ensures SumTotals([a, b]) == SumTotals([b, a]) == a.totalSize + b.totalSize
  {
    assert [a, b][1..] == [b];
    assert [b, a][1..] == [a];
    assert [a][1..] == [] && [b][1..] == [];
    assert SumTotals([a]) == a.totalSize && SumTotals([b]) == b.totalSize;
  }

  /** The location shown in the summary. */
  function ShownLocation(item: Item): (loc: string)
    ensures item.absoluteLocation != "" ==> loc == item.absoluteLocation
    ensures item.absoluteLocation == "" ==> loc == item.downloadLocation
    ensures loc == "" <==> item.absoluteLocation == "" && item.downloadLocation == ""
  {
    if item.absoluteLocation != "" then item.absoluteLocation else item.downloadLocation
  }

  // ---------------------------------------------------------------------
  // Progress bars

  /** The part of an mpb bar that resume reads and writes.  mpb is a
      library outside this model; the bar is assumed to complete, clamped
      to its total, once the current value reaches the total, and to ignore
      a negative SetCurrent. */
  datatype BarView = BarView(current: int, total: int, completed: bool)

  function SetCurrentView(b: BarView, n: int): BarView
  {
    if n < 0 then b
    else if n >= b.total then BarView(b.total, b.total, true)
    else b.(current := n)
  }

  function IncrByView(b: BarView, n: int): BarView
  {
    if n <= 0 then b else SetCurrentView(b, b.current + n)
  }

  /** The download-complete and compile-complete handlers: fill the bar to
      the item's total unless it already completed. */
  function CompleteView(b: BarView, total: int): BarView
  {
    if b.completed then b else SetCurrentView(b, total)
  }

  /** Calling a completion handler twice changes nothing more than calling
      it once. */
  lemma CompleteIdempotent(b: BarView, total: int)
    ensures CompleteView(CompleteView(b, total), total) == CompleteView(b, total)
  {
  }

  /** A handler given the bar's own total leaves it completed at that total. */
  lemma CompleteFills(b: BarView)
    requires b.total >= 0 && (b.completed ==> b.current == b.total)
    ensures CompleteView(b, b.total) == BarView(b.total, b.total, true)
  {
  }

  class Bar {
    var current: int
    var total: int
    var completed: bool

    function View(): BarView
      reads this
    {
      BarView(current, total, completed)
    }

    /** initBars: a bar sized to the item's total, nothing done yet. */
    constructor (total: int)
      ensures View() == BarView(0, total, false)
    {
      this.current := 0;
      this.total := total;
      this.completed := false;
    }

    predicate Completed()
      reads this
    {
      completed
    }

    method SetCurrent(n: int)
      modifies this
      ensures View() == SetCurrentView(old(View()), n)
    {
      if n >= 0 {
        if n >= total {
          current, completed := total, true;
        } else {
          current := n;
        }
      }
    }

    method IncrBy(n: int)
      modifies this
      ensures View() == IncrByView(old(View()), n)
    {
      if n > 0 {
        SetCurrent(current + n);
      }
    }
  }

  /** The progress handlers: dbar.IncrBy(nread). */
  method OnProgress(bar: Bar, nread: int)
    modifies bar
    ensures bar.View() == IncrByView(old(bar.View()), nread)
  {
    bar.IncrBy(nread);
  }

  /** DownloadCompleteHandler and CompileCompleteHandler of both items. */
  method OnComplete(bar: Bar, item: Item)
    modifies bar
    ensures bar.View() == CompleteView(old(bar.View()), item.totalSize)
  {
    if bar.Completed() {
      return;
    }
    bar.SetCurrent(item.totalSize);
  }

  // ---------------------------------------------------------------------
  // resumeItem and the compile gate

  /** resumeItem transfers only what is missing. */
  predicate NeedsResume(i: Item)
  {
    i.downloaded < i.totalSize
  }

  /** One run of resumeItem: when the item is incomplete it calls Resume
      and OVERWRITES the shared err with its result (nil included);
      otherwise it fills both bars and leaves err alone. */
  method ResumeItem(i: Item, db: Bar, cb: Bar, outcome: Option<string>, err: Option<string>)
    returns (err': Option<string>, calls: seq<Call>)
    requires db != cb
    modifies db, cb
    ensures calls == if NeedsResume(i) then [ItemResume(i.hash)] else []
    ensures NeedsResume(i) ==> err' == outcome && db.View() == old(db.View()) && cb.View() == old(cb.View())
    ensures !NeedsResume(i) ==>
      && err' == err
      && db.View() == SetCurrentView(old(db.View()), i.totalSize)
      && cb.View() == SetCurrentView(old(cb.View()), i.totalSize)
  {
    if i.downloaded < i.totalSize {
      err' := outcome;
      calls := [ItemResume(i.hash)];
    } else {
      err' := err;
      calls := [];
      db.SetCurrent(i.totalSize);
      cb.SetCurrent(i.totalSize);
    }
  }

  /** The order in which the resumeItem runs write err.  With a child the
      two goroutines race; `childLast` says which one writes last. */
  function Order(p: Pair, childLast: bool): (s: seq<Item>)
    ensures p.child.None? ==> s == [p.primary]
    ensures p.child.Some? ==> multiset(s) == multiset{p.primary, p.child.value}
  {
    match p.child
    case None => [p.primary]
    case Some(c) => if childLast then [p.primary, c] else [c, p.primary]
  }

  /** The value of err after the runs `steps`, starting from nil: the
      result of the last run that called Resume. */
  function FinalErr(steps: seq<Item>, outcome: string -> Option<string>): Option<string>
  {
    if steps == [] then None
    else
      var last := steps[|steps| - 1];
      if NeedsResume(last) then outcome(last.hash) else FinalErr(steps[..|steps| - 1], outcome)
  }

  datatype Call =
    | ResumeDownloadCall(hash: string)  // m.ResumeDownload
    | ItemResume(hash: string)          // Item.Resume
    | CompileVideo(videoPath: string, audioPath: string, videoName: string, audioName: string, location: string)

  /** The Item.Resume calls of the runs `steps`, in order. */
  function ResumeCalls(steps: seq<Item>): (cs: seq<Call>)
    ensures forall c :: c in cs ==> c.ItemResume?
  {
    if steps == [] then []
    else (if NeedsResume(steps[0]) then [ItemResume(steps[0].hash)] else []) + ResumeCalls(steps[1..])
  }

  /** A single run calls Item.Resume exactly when its item is incomplete. */
  lemma ResumeCallsOne(i: Item)
    ensures ResumeCalls([i]) == if NeedsResume(i) then [ItemResume(i.hash)] else []
  {
    assert [i][1..] == [];
  }

  /** The compile step runs when err is finally nil and there is a child. */
  function CompileCalls(p: Pair, err: Option<string>): seq<Call>
  {
    if err.None? && p.child.Some? then
      [CompileVideo(p.primary.savePath, p.child.value.savePath, p.primary.name, p.child.value.name,
                    p.primary.absoluteLocation)]
    else []
  }

  /** The external calls resume makes once the manager is open. */
  function Plan(hash: string, resolve: string -> Result<Item, string>,
                outcome: string -> Option<string>, childLast: bool): seq<Call>
  {
    ResolveCalls(hash, resolve)
    + match ResolvePair(hash, resolve)
      case Failure(_) => []
      case Success(p) =>
        var steps := Order(p, childLast);
        ResumeCalls(steps) + CompileCalls(p, FinalErr(steps, outcome))
  }

  /** The summary line of resume for a resolved pair. */
  function SummaryEffect(p: Pair, maxConns: int, maxParts: int, sizeText: int -> string): Warp.Effect
  {
    Warp.PrintText(InfoText(p.primary.name, sizeText(ReportedSize(p)), ShownLocation(p.primary),
                            maxConns, maxParts) + "\n")
  }

  /** What resume prints once the manager is open. */
  function PlanEffects(hash: string, resolve: string -> Result<Item, string>,
                       outcome: string -> Option<string>, childLast: bool,
                       maxConns: int, maxParts: int, sizeText: int -> string): seq<Warp.Effect>
  {
    match ResolvePair(hash, resolve)
    case Failure(e) => [Warp.RuntimeError(e.step, e.msg)]
    case Success(p) =>
      [SummaryEffect(p, maxConns, maxParts, sizeText)]
      + match FinalErr(Order(p, childLast), outcome)
        case Some(e) => [Warp.RuntimeError("resume", e)]
        case None => []
  }

  /** The two m.ResumeDownload calls of resume and the summary. */
  method ResolveStep(arg: string, resolve: string -> Result<Item, string>)
    returns (r: Result<Pair, ResolveError>, calls: seq<Call>)
    ensures r == ResolvePair(arg, resolve)
    ensures calls == ResolveCalls(arg, resolve)
  {
    calls := [ResumeDownloadCall(arg)];
    var ri := resolve(arg);
    if ri.Failure? {
      return Failure(ResolveError("resume", ri.error)), calls;
    }
    var item := ri.value;
    if item.childHash == "" {
      return Success(Pair(item, None)), calls;
    }
    calls := calls + [ResumeDownloadCall(item.childHash)];
    var rc := resolve(item.childHash);
    if rc.Failure? {
      return Failure(ResolveError("secondary-resume", rc.error)), calls;
    }
    r := Success(Pair(item, Some(rc.value)));
  }

  /** The summary block, with the combined size and the save location. */
  method Summary(p: Pair, maxConns: int, maxParts: int, sizeText: int -> string) returns (e: Warp.Effect)
    ensures e == SummaryEffect(p, maxConns, maxParts, sizeText)
  {
    var size := p.primary.totalSize;
    if p.child.Some? {
      size := size + p.child.value.totalSize;
    }
    var loc := p.primary.absoluteLocation;
    if loc == "" {
      loc := p.primary.downloadLocation;
    }
    assert size == ReportedSize(p) && loc == ShownLocation(p.primary);
    e := Warp.PrintText(InfoText(p.primary.name, sizeText(size), loc, maxConns, maxParts) + "\n");
  }

  /** The resumeItem runs of the pair in the order `childLast` picks, each
      with its own pair of fresh bars, and the final value of err. */
  method ResumeAll(p: Pair, childLast: bool, outcome: string -> Option<string>)
    returns (err: Option<string>, calls: seq<Call>)
    ensures err == FinalErr(Order(p, childLast), outcome)
    ensures calls == ResumeCalls(Order(p, childLast))
  {
    var item := p.primary;
    var dbar := new Bar(item.totalSize);
    var cbar := new Bar(item.totalSize);
    if p.child.None? {
      LastWriteWins(outcome, [], item);
      ResumeCallsOne(item);
      err, calls := ResumeItem(item, dbar, cbar, outcome(item.hash), None);
      return;
    }
    var child := p.child.value;
    var sDBar := new Bar(child.totalSize);
    var sCBar := new Bar(child.totalSize);
    var first, second := child, item;
    if childLast {
      first, second := item, child;
    }
    assert Order(p, childLast) == [first] + [second];
    LastWriteWins(outcome, [], first);
    LastWriteWins(outcome, [first], second);
    ResumeCallsConcat([first], [second]);
    ResumeCallsOne(first);
    ResumeCallsOne(second);
    var firstCalls, secondCalls;
    if childLast {
      err, firstCalls := ResumeItem(item, dbar, cbar, outcome(item.hash), None);
      err, secondCalls := ResumeItem(child, sDBar, sCBar, outcome(child.hash), err);
    } else {
      err, firstCalls := ResumeItem(child, sDBar, sCBar, outcome(child.hash), None);
      err, secondCalls := ResumeItem(item, dbar, cbar, outcome(item.hash), err);
    }
    calls := firstCalls + secondCalls;
  }

  /** err after one more run: that run's Resume result when it resumes,
      the earlier value otherwise. */
  lemma LastWriteWins(outcome: string -> Option<string>, steps: seq<Item>, last: Item)
    ensures FinalErr(steps + [last], outcome)
         == if NeedsResume(last) then outcome(last.hash) else FinalErr(steps, outcome)
  {
    assert (steps + [last])[..|steps|] == steps;
  }

  /** resume(ctx).  The manager, the items and Item.Resume are outside this
      model: `managerErr` is what warplib.InitManager reports, `resolve`
      what m.ResumeDownload returns for a hash, `outcome` what Item.Resume
      returns for an item's hash, `sizeText` how a size prints. */
  method Resume(arg: string, cmdName: string, managerErr: Option<string>,
                resolve: string -> Result<Item, string>, outcome: string -> Option<string>,
                childLast: bool, maxConns: int, maxParts: int, sizeText: int -> string)
    returns (effects: seq<Warp.Effect>, calls: seq<Call>)
    ensures CheckArg(arg, cmdName, NoHash).Respond? ==>
      effects == CheckArg(arg, cmdName, NoHash).effects && calls == []
    ensures CheckArg(arg, cmdName, NoHash).Proceed? && managerErr.Some? ==>
      effects == [Warp.PrintText(Initiating + "\n"), Warp.RuntimeError("info", managerErr.value)] && calls == []
    ensures CheckArg(arg, cmdName, NoHash).Proceed? && managerErr.None? ==>
      && effects == [Warp.PrintText(Initiating + "\n")]
                    + PlanEffects(arg, resolve, outcome, childLast, maxConns, maxParts, sizeText)
      && calls == Plan(arg, resolve, outcome, childLast)
  {
    var check := CheckArg(arg, cmdName, NoHash);
    if check.Respond? {
      return check.effects, [];
    }
    var start := Warp.PrintText(Initiating + "\n");
    if managerErr.Some? {
      return [start, Warp.RuntimeError("info", managerErr.value)], [];
    }
    var rest, restCalls := ResumeOpened(arg, resolve, outcome, childLast, maxConns, maxParts, sizeText);
    return [start] + rest, restCalls;
  }

  /** The part of resume after the manager opened: resolution, summary,
      the resumeItem runs and the compile gate. */
  method ResumeOpened(arg: string, resolve: string -> Result<Item, string>, outcome: string -> Option<string>,
                      childLast: bool, maxConns: int, maxParts: int, sizeText: int -> string)
    returns (effects: seq<Warp.Effect>, calls: seq<Call>)
    ensures effects == PlanEffects(arg, resolve, outcome, childLast, maxConns, maxParts, sizeText)
    ensures calls == Plan(arg, resolve, outcome, childLast)
  {
    var r, resolveCalls := ResolveStep(arg, resolve);
    if r.Failure? {
      return [Warp.RuntimeError(r.error.step, r.error.msg)], resolveCalls;
    }
    var p := r.value;
    PlanOfPair(arg, resolve, outcome, childLast, maxConns, maxParts, sizeText, p);
    var summary := Summary(p, maxConns, maxParts, sizeText);
    var err, resumeCalls := ResumeAll(p, childLast, outcome);
    calls := resolveCalls + resumeCalls;
    effects := [summary];
    if err.Some? {
      effects := effects + [Warp.RuntimeError("resume", err.value)];
      return;
    }
    if p.child.None? {
      return;
    }
    calls := calls + [CompileVideo(p.primary.savePath, p.child.value.savePath, p.primary.name,
                                   p.child.value.name, p.primary.absoluteLocation)];
  }

  /** Plan and PlanEffects once the pair resolved. */
  lemma PlanOfPair(hash: string, resolve: string -> Result<Item, string>, outcome: string -> Option<string>,
                   childLast: bool, maxConns: int, maxParts: int, sizeText: int -> string, p: Pair)
    requires ResolvePair(hash, resolve) == Success(p)
    ensures Plan(hash, resolve, outcome, childLast)
         == ResolveCalls(hash, resolve) + ResumeCalls(Order(p, childLast))
            + CompileCalls(p, FinalErr(Order(p, childLast), outcome))
    ensures PlanEffects(hash, resolve, outcome, childLast, maxConns, maxParts, sizeText)
         == [SummaryEffect(p, maxConns, maxParts, sizeText)]
            + (if FinalErr(Order(p, childLast), outcome).Some?
               then [Warp.RuntimeError("resume", FinalErr(Order(p, childLast), outcome).value)] else [])
  {
  }

  lemma {:induction false} ResumeCallsConcat(a: seq<Item>, b: seq<Item>)
    ensures ResumeCalls(a + b) == ResumeCalls(a) + ResumeCalls(b)
  {
    if a != [] {
      assert (a + b)[1..] == a[1..] + b;
      ResumeCallsConcat(a[1..], b);
    } else {
      assert a + b == b;
    }
  }
  // ---------------------------------------------------------------------
  // Properties of resume

  lemma {:induction false} ResumeCallsMembers(steps: seq<Item>, h: string)
    ensures ItemResume(h) in ResumeCalls(steps) <==> exists x :: x in steps && NeedsResume(x) && x.hash == h
  {
    if steps != [] {
      ResumeCallsMembers(steps[1..], h);
      assert forall x :: x in steps <==> x == steps[0] || x in steps[1..];
    }
  }

  /** m.ResumeDownload runs for the hash, and a second time exactly when
      the primary item resolved and names a child. */
  lemma ChildResolvedOnlyWhenNamed(hash: string, resolve: string -> Result<Item, string>,
                                   outcome: string -> Option<string>, childLast: bool, h: string)
    ensures ResumeDownloadCall(h) in Plan(hash, resolve, outcome, childLast) <==>
      h == hash || (resolve(hash).Success? && resolve(hash).value.childHash != "" && h == resolve(hash).value.childHash)
  {
    var pre := ResolveCalls(hash, resolve);
    var P := Plan(hash, resolve, outcome, childLast);
    assert P == pre + P[|pre|..];
    assert forall c :: c in P[|pre|..] ==> !c.ResumeDownloadCall?;
    assert pre == [pre[0]] || pre == [pre[0], pre[1]];
  }

  /** A failed resolution stops resume before any transfer or compile. */
  lemma ResolutionFailureStops(hash: string, resolve: string -> Result<Item, string>,
                               outcome: string -> Option<string>, childLast: bool)
    requires ResolvePair(hash, resolve).Failure?
    ensures forall c :: c in Plan(hash, resolve, outcome, childLast) ==> c.ResumeDownloadCall?
  {
  }

  /** With the pair resolved, an item is resumed exactly when it is
      incomplete. */
  lemma ResumedIffIncomplete(hash: string, resolve: string -> Result<Item, string>,
                             outcome: string -> Option<string>, childLast: bool, h: string)
    requires ResolvePair(hash, resolve).Success?
    ensures var p := ResolvePair(hash, resolve).value;
      ItemResume(h) in Plan(hash, resolve, outcome, childLast) <==>
        || (NeedsResume(p.primary) && h == p.primary.hash)
        || (p.child.Some? && NeedsResume(p.child.value) && h == p.child.value.hash)
  {
    var p := ResolvePair(hash, resolve).value;
    var steps := Order(p, childLast);
    PlanOfPair(hash, resolve, outcome, childLast, 0, 0, _ => "", p);
    ResumeCallsMembers(steps, h);
    assert forall x :: x in steps <==> x == p.primary || (p.child.Some? && x == p.child.value) by {
      assert forall x :: x in multiset(steps) <==> x in steps;
    }
  }

  /** compileVideo runs at most once, as the last call, and exactly when
      the pair resolved with a child and the final err is nil; its
      arguments are both save paths, both names and the primary's
      absolute location. */
  lemma CompileGate(hash: string, resolve: string -> Result<Item, string>,
                    outcome: string -> Option<string>, childLast: bool)
    ensures var P := Plan(hash, resolve, outcome, childLast);
      forall k :: 0 <= k < |P| && P[k].CompileVideo? ==> k == |P| - 1
    ensures var P := Plan(hash, resolve, outcome, childLast);
      var r := ResolvePair(hash, resolve);
      (exists k :: 0 <= k < |P| && P[k].CompileVideo?) <==>
        r.Success? && r.value.child.Some? && FinalErr(Order(r.value, childLast), outcome).None?
    ensures var P := Plan(hash, resolve, outcome, childLast);
      var r := ResolvePair(hash, resolve);
      r.Success? && r.value.child.Some? && FinalErr(Order(r.value, childLast), outcome).None? ==>
        P[|P| - 1] == CompileVideo(r.value.primary.savePath, r.value.child.value.savePath,
                                   r.value.primary.name, r.value.child.value.name,
                                   r.value.primary.absoluteLocation)
  {
    var P := Plan(hash, resolve, outcome, childLast);
    var pre := ResolveCalls(hash, resolve);
    match ResolvePair(hash, resolve)
    case Failure(_) =>
      assert P == pre;
    case Success(p) =>
      var steps := Order(p, childLast);
      var mid := pre + ResumeCalls(steps);
      PlanOfPair(hash, resolve, outcome, childLast, 0, 0, _ => "", p);
      assert forall k :: 0 <= k < |mid| ==> !mid[k].CompileVideo? by {
        forall k | 0 <= k < |mid| ensures !mid[k].CompileVideo? {
          if k >= |pre| {
            assert mid[k] == ResumeCalls(steps)[k - |pre|];
            assert mid[k] in ResumeCalls(steps);
          } else {
            assert mid[k] == pre[k];
          }
        }
      }
      if p.child.Some? && FinalErr(steps, outcome).None? {
        assert P[|P| - 1].CompileVideo?;
      } else {
        assert P == mid;
      }
  }

  /** When both items are resumed, err holds the result of whichever run
      finished last: the race decides. */
  lemma LastWriterDecides(p: Pair, childLast: bool, outcome: string -> Option<string>)
    requires p.child.Some? && NeedsResume(p.primary) && NeedsResume(p.child.value)
    ensures FinalErr(Order(p, childLast), outcome)
         == outcome(if childLast then p.child.value.hash else p.primary.hash)
  {
    var first := if childLast then p.primary else p.child.value;
    var second := if childLast then p.child.value else p.primary;
    assert Order(p, childLast) == [first] + [second];
    LastWriteWins(outcome, [first], second);
  }

  /** When no resumed item fails, the final err is nil whatever the order. */
  lemma NoFailureNoError(p: Pair, childLast: bool, outcome: string -> Option<string>)
    requires NeedsResume(p.primary) ==> outcome(p.primary.hash).None?
    requires p.child.Some? && NeedsResume(p.child.value) ==> outcome(p.child.value.hash).None?
    ensures FinalErr(Order(p, childLast), outcome).None?
  {
    LastWriteWins(outcome, [], p.primary);
    if p.child.Some? {
      var first := if childLast then p.primary else p.child.value;
      var second := if childLast then p.child.value else p.primary;
      assert Order(p, childLast) == [first] + [second];
      LastWriteWins(outcome, [], first);
      LastWriteWins(outcome, [first], second);
    } else {
      assert Order(p, childLast) == [] + [p.primary];
    }
  }

  /** The failure of one resumed item is not enough to skip the compile:
      when the video's Resume fails and the audio's succeeds afterwards,
      err ends nil and compileVideo still runs.  In the other order the
      same results skip it. */
  lemma FailureMaskedByLaterWrite()
    ensures var video := Item("v", "video", 10, 0, "a", "/dl", "", "/dl/video");
      var audio := Item("a", "audio", 5, 0, "", "/dl", "", "/dl/audio");
      var resolve := (h: string) => if h == "v" then Success(video) else Success(audio);
      var outcome := (h: string) => if h == "v" then Some("connection reset") else None;
      && CompileVideo("/dl/video", "/dl/audio", "video", "audio", "/dl") in Plan("v", resolve, outcome, true)
      && (forall c :: c in Plan("v", resolve, outcome, false) ==> !c.CompileVideo?)
  {
    var video := Item("v", "video", 10, 0, "a", "/dl", "", "/dl/video");
    var audio := Item("a", "audio", 5, 0, "", "/dl", "", "/dl/audio");
    var resolve := (h: string) => if h == "v" then Success(video) else Success(audio);
    var outcome := (h: string) => if h == "v" then Some("connection reset") else None;
    assert ResolvePair("v", resolve) == Success(Pair(video, Some(audio)));
    LastWriterDecides(Pair(video, Some(audio)), true, outcome);
    LastWriterDecides(Pair(video, Some(audio)), false, outcome);
    CompileGate("v", resolve, outcome, true);
    CompileGate("v", resolve, outcome, false);
    var P := Plan("v", resolve, outcome, true);
    assert P[|P| - 1] in P;
    var Q := Plan("v", resolve, outcome, false);
    forall c | c in Q ensures !c.CompileVideo? {
      var k :| 0 <= k < |Q| && Q[k] == c;
    }
  }
}
