/** The `info` and `list` commands (cmd/info.go): the file-name fallback of
    `info`, and the table `list` prints, with its padding helpers. */
module Info {
  import opened Wrappers
  import opened Text
  import opened Warplib

  // ---------------------------------------------------------------------
  // replic and beaut

  /** replic: a fresh array of length `n` holding `v` everywhere.  Go's
      `make` panics on a negative length, hence the precondition. */
  method Replic<T(0)>(v: T, n: int) returns (a: array<T>)
    requires n >= 0
    ensures fresh(a)
    ensures a.Length == n
    ensures forall i :: 0 <= i < n ==> a[i] == v
  {
    a := new T[n];
    var i := 0;
    while i < a.Length
      invariant 0 <= i <= a.Length
      invariant forall j :: 0 <= j < i ==> a[j] == v
    {
      a[i] := v;
      i := i + 1;
    }
  }

  /** Go's `/` on int truncates toward zero. */
  function GoQuo(x: int, y: int): (q: int)
    requires y > 0
    ensures x >= 0 ==> q == x / y
    ensures -y < x < 0 ==> q == 0
  {
    if x >= 0 then x / y else -((-x) / y)
  }

  /** Go's `%` on int takes the sign of the dividend. */
  function GoRem(x: int, y: int): int
    requires y > 0
  {
    x - y * GoQuo(x, y)
  }

  /** What beaut(s, n) returns.  replic(' ', x/2) panics when x/2 < 0, that
      is when `s` is more than one character longer than `n`. */
  function Centred(s: string, n: int): (r: string)
    requires |s| <= n + 1
    ensures |s| <= n ==> |r| == n && OccursAt(r, s, (n - |s|) / 2)
    ensures |s| <= n ==> forall j :: 0 <= j < (n - |s|) / 2 ==> r[j] == ' '
    ensures |s| == n + 1 ==> r == s + " "
  {
    var x := n - |s|;
    var w := Spaces(GoQuo(x, 2));
    w + s + w + (if GoRem(x, 2) != 0 then " " else "")
  }

  /** A string no longer than `n` is centred in exactly `n` columns: the
      left pad is half the slack, the right pad the same plus one when the
      slack is odd.  A string one longer than `n` gets one blank appended. */
  lemma CentredShape(s: string, n: int)
    requires |s| <= n + 1
    ensures |s| <= n ==>
      var left := (n - |s|) / 2;
      && |Centred(s, n)| == n
      && Centred(s, n) == Spaces(left) + s + Spaces(left + (n - |s|) % 2)
    ensures |s| == n + 1 ==> Centred(s, n) == s + " "
  {
    var x := n - |s|;
    if x >= 0 {
      var left := x / 2;
      if x % 2 != 0 {
        SpacesSplit(left, 1);
        assert Spaces(1) == " ";
        assert Centred(s, n) == Spaces(left) + s + (Spaces(left) + Spaces(1));
      } else {
        assert Centred(s, n) == Spaces(left) + s + Spaces(left) + [];
      }
    }
  }

  /** beaut, built with successive `+=` as in the source. */
  method Beaut(s: string, n: int) returns (b: string)
    requires |s| <= n + 1
    ensures b == Centred(s, n)
    ensures |s| <= n ==> |b| == n
  {
    var n1 := |s|;
    var x := n - n1;
    var x1 := GoQuo(x, 2);
    var a := Replic(' ', x1);
    var w := a[..];
    assert w == Spaces(x1);
    b := w;
    b := b + s;
    b := b + w;
    if GoRem(x, 2) != 0 {
      b := b + " ";
    }
    CentredShape(s, n);
  }

  // ---------------------------------------------------------------------
  // list

  const NameWidth := 23
  const NoDownloads := "warp: no downloads found"
  const TableHeader := "Here are your downloads:"
    + "\n\n------------------------------------------------------"
    + "\n|Num|\t         Name         | Unique Hash | Status |"
    + "\n|---|-------------------------|-------------|--------|"
  const TableFooter := "\n------------------------------------------------------"

  /** One entry of the daemon's list reply.  `percentage` stands for
      item.GetPercentage(), which is computed outside this model from the
      downloaded and total byte counts and is never negative. */
  datatype ListItem = ListItem(name: string, hash: string, hidden: bool, children: bool, percentage: nat)

  /** The flags sent with the list request. */
  datatype ListOpts = ListOpts(showCompleted: bool, showPending: bool)

  /** `--all` asks for both completed and pending downloads; without it each
      flag is passed on as given. */
  function ListRequest(showCompleted: bool, showPending: bool, showAll: bool): (o: ListOpts)
    ensures showAll ==> o.showCompleted && o.showPending
    ensures !showAll ==> o == ListOpts(showCompleted, showPending)
  {
    ListOpts(showCompleted || showAll, showPending || showAll)
  }

  /** Hidden items and child (audio) items are listed only with showHidden. */
  predicate Shown(item: ListItem, showHidden: bool)
  {
    showHidden || !(item.hidden || item.children)
  }

  /** The items that get a row, in list order. */
  function Visible(items: seq<ListItem>, showHidden: bool): seq<ListItem>
  {
    if items == [] then []
    else
      var last := items[|items| - 1];
      Visible(items[..|items| - 1], showHidden) + (if Shown(last, showHidden) then [last] else [])
  }

  /** The rows are exactly the shown items, order kept: `Visible` is the
      filter of `items` by `Shown`. */
  lemma {:induction false} VisibleIsFilter(items: seq<ListItem>, showHidden: bool)
    ensures forall x :: x in Visible(items, showHidden) <==> x in items && Shown(x, showHidden)
    ensures |Visible(items, showHidden)| <= |items|
    ensures (forall k :: 0 <= k < |items| ==> !Shown(items[k], showHidden)) <==>
            Visible(items, showHidden) == []
  {
    if items != [] {
      var init := items[..|items| - 1];
      VisibleIsFilter(init, showHidden);
      assert items == init + [items[|items| - 1]];
      forall x ensures x in items <==> x in init || x == items[|items| - 1] {
      }
    }
  }

  /** The name column: exactly 23 characters.  Longer names keep their
      first 20 characters and end in "...", shorter ones are centred, a
      23-character name is unchanged. */
  function NormalName(name: string): (r: string)
    ensures |r| == NameWidth
    ensures |name| == NameWidth ==> r == name
    ensures |name| > NameWidth ==> r[..20] == name[..20] && r[20..] == "..."
    ensures |name| < NameWidth ==>
      var left := (NameWidth - |name|) / 2;
      r[..left] == Spaces(left) && r[left..left + |name|] == name &&
      r[left + |name|..] == Spaces(NameWidth - left - |name|)
  {
    if |name| > NameWidth then name[..20] + "..."
    else if |name| < NameWidth then
      CentredShape(name, NameWidth);
      Centred(name, NameWidth)
    else name
  }

  /** `%d%%` of a percentage fits beaut(perc, 4) only up to 9999. */
  predicate PercentFits(p: nat)
  {
    p <= 9999
  }

  function PercentText(p: nat): (r: string)
    requires PercentFits(p)
    ensures |r| <= 5
  {
    DecimalWidth4(p);
    NatDecimal(p) + "%"
  }

  function RowText(num: nat, item: ListItem): string
    requires PercentFits(item.percentage)
  {
    "\n| " + NatDecimal(num) + " | " + NormalName(item.name) + " |   " + item.hash
      + "  |  " + Centred(PercentText(item.percentage), 4) + "  |"
  }

  predicate AllFit(rows: seq<ListItem>)
  {
    forall k :: 0 <= k < |rows| ==> PercentFits(rows[k].percentage)
  }

  /** The rows of the table; the last row carries the number |rows|. */
  function RowsText(rows: seq<ListItem>): string
    requires AllFit(rows)
  {
    if rows == [] then ""
    else RowsText(rows[..|rows| - 1]) + RowText(|rows|, rows[|rows| - 1])
  }

  /** Rows are numbered 1, 2, ... consecutively: the table starts with the
      rows of the first k shown items followed by row k + 1, which shows the
      item at index k. */
  lemma {:induction false} RowsNumbered(rows: seq<ListItem>, k: nat)
    requires AllFit(rows) && k < |rows|
    ensures RowsText(rows[..k]) + RowText(k + 1, rows[k]) <= RowsText(rows)
  {
    var init := rows[..|rows| - 1];
    assert AllFit(init);
    assert RowsText(rows) == RowsText(init) + RowText(|rows|, rows[|rows| - 1]);
    if k == |rows| - 1 {
      assert rows[..k] == init;
    } else {
      RowsNumbered(init, k);
      TakeOfTake(rows, |rows| - 1, k);
      PrefixGrows(RowsText(rows[..k]) + RowText(k + 1, rows[k]), RowsText(init), RowText(|rows|, rows[|rows| - 1]));
    }
  }

  lemma TakeOfTake<T>(s: seq<T>, n: nat, k: nat)
    requires k < n <= |s|
    ensures s[..n][..k] == s[..k] && s[..n][k] == s[k]
  {
  }

  /** One more item extends the table by its row exactly when it is shown. */
  lemma RowsStep(items: seq<ListItem>, k: nat, showHidden: bool)
    requires k < |items| && AllFit(Visible(items[..k + 1], showHidden))
    ensures Visible(items[..k + 1], showHidden)
         == Visible(items[..k], showHidden) + (if Shown(items[k], showHidden) then [items[k]] else [])
    ensures AllFit(Visible(items[..k], showHidden))
    ensures Shown(items[k], showHidden) ==> PercentFits(items[k].percentage)
    ensures RowsText(Visible(items[..k + 1], showHidden)) ==
      RowsText(Visible(items[..k], showHidden)) +
      (if Shown(items[k], showHidden) then RowText(|Visible(items[..k], showHidden)| + 1, items[k]) else "")
  {
    assert items[..k + 1] == items[..k] + [items[k]];
    VisibleAppend(items[..k], items[k], showHidden);
    var v := Visible(items[..k], showHidden);
    var x := items[k];
    if Shown(x, showHidden) {
      assert (v + [x])[..|v + [x]| - 1] == v;
      assert (v + [x])[|v|] == x;
    } else {
      assert v + [] == v;
    }
  }

  /** The body of the `list` loop for a shown item: the name column, the
      status column and the row line. */
  method FormatRow(i: nat, item: ListItem) returns (row: string)
    requires PercentFits(item.percentage)
    ensures row == RowText(i, item)
  {
    var name := item.name;
    var n := |name|;
    if n > NameWidth {
      name := name[..20] + "...";
    } else if n < NameWidth {
      name := Beaut(name, NameWidth);
    }
    var perc := PercentText(item.percentage);
    var cell := Beaut(perc, 4);
    row := "\n| " + NatDecimal(i) + " | " + name + " |   " + item.hash + "  |  " + cell + "  |";
  }

  /** What `list` does once the daemon has answered. */
  datatype ListOutcome =
    | ListCommandHelp(command: string)          // list help
    | ListRuntimeError(step: string, msg: string) // printRuntimeErr(ctx, "list", step, err)
    | ListPrinted(text: string)                 // fmt.Println of the table or the fallback

  /** The table loop of `list`: skip filtered items, number the others, and
      fall back when nothing was listed. */
  method ListTable(items: seq<ListItem>, showHidden: bool) returns (txt: string)
    requires AllFit(Visible(items, showHidden))
    ensures Visible(items, showHidden) == [] ==> txt == NoDownloads
    ensures Visible(items, showHidden) != [] ==>
      txt == TableHeader + RowsText(Visible(items, showHidden)) + TableFooter
  {
    if |items| == 0 {
      return NoDownloads;
    }
    // The rows are gathered apart and the header put in front at the end;
    // the text is the same as appending every row to the header.
    var rows := "";
    var i: nat := 0;
    var k := 0;
    assert items[..0] == [];
    while k < |items|
      invariant 0 <= k <= |items|
      invariant i == |Visible(items[..k], showHidden)|
      invariant AllFit(Visible(items[..k], showHidden))
      invariant rows == RowsText(Visible(items[..k], showHidden))
    {
      i, rows := ListStep(items, k, showHidden, i, rows);
      k := k + 1;
    }
    assert items[..k] == items;
    if i == 0 {
      assert Visible(items, showHidden) == [];
      return NoDownloads;
    }
    assert Visible(items, showHidden) != [];
    txt := TableHeader + rows + TableFooter;
  }

  /** One pass of the loop of `list`: a filtered item is skipped, a shown
      one gets the next number and its row. */
  method ListStep(items: seq<ListItem>, k: nat, showHidden: bool, i: nat, rows: string)
    returns (i': nat, rows': string)
    requires k < |items| && AllFit(Visible(items, showHidden))
    requires i == |Visible(items[..k], showHidden)|
    requires AllFit(Visible(items[..k], showHidden))
    requires rows == RowsText(Visible(items[..k], showHidden))
    ensures i' == |Visible(items[..k + 1], showHidden)|
    ensures AllFit(Visible(items[..k + 1], showHidden))
    ensures rows' == RowsText(Visible(items[..k + 1], showHidden))
  {
    var item := items[k];
    PrefixFits(items, k + 1, showHidden);
    RowsStep(items, k, showHidden);
    if showHidden || !(item.hidden || item.children) {
      var v := Visible(items[..k + 1], showHidden);
      assert v[|v| - 1] == item;
      i' := i + 1;
      var row := FormatRow(i', item);
      TableStep(items, k, showHidden, rows, row);
      rows' := rows + row;
    } else {
      TableSkip(items, k, showHidden, rows);
      i', rows' := i, rows;
    }
  }

  /** The loop step for a filtered item: the table does not change. */
  lemma TableSkip(items: seq<ListItem>, k: nat, showHidden: bool, txt: string)
    requires k < |items| && AllFit(Visible(items[..k + 1], showHidden))
    requires !Shown(items[k], showHidden)
    requires AllFit(Visible(items[..k], showHidden))
    requires txt == RowsText(Visible(items[..k], showHidden))
    ensures txt == RowsText(Visible(items[..k + 1], showHidden))
  {
    RowsStep(items, k, showHidden);
  }

  /** The loop step for a shown item: appending its row to the table of
      the first k items gives the table of the first k + 1. */
  lemma TableStep(items: seq<ListItem>, k: nat, showHidden: bool, txt: string, row: string)
    requires k < |items| && AllFit(Visible(items[..k + 1], showHidden))
    requires Shown(items[k], showHidden)
    requires AllFit(Visible(items[..k], showHidden))
    requires txt == RowsText(Visible(items[..k], showHidden))
    requires PercentFits(items[k].percentage)
    requires row == RowText(|Visible(items[..k], showHidden)| + 1, items[k])
    ensures txt + row == RowsText(Visible(items[..k + 1], showHidden))
  {
    RowsStep(items, k, showHidden);
  }

  lemma VisibleAppend(items: seq<ListItem>, x: ListItem, showHidden: bool)
    ensures Visible(items + [x], showHidden)
         == Visible(items, showHidden) + (if Shown(x, showHidden) then [x] else [])
  {
    assert (items + [x])[..|items + [x]| - 1] == items;
  }

  /** Filtering a concatenation filters each part. */
  lemma {:induction false} VisibleConcat(a: seq<ListItem>, b: seq<ListItem>, showHidden: bool)
    ensures Visible(a + b, showHidden) == Visible(a, showHidden) + Visible(b, showHidden)
    decreases |b|
  {
    if b == [] {
      assert a + b == a;
    } else {
      var init := b[..|b| - 1];
      var last := b[|b| - 1];
      assert a + b == (a + init) + [last];
      assert b == init + [last];
      VisibleAppend(a + init, last, showHidden);
      VisibleAppend(init, last, showHidden);
      VisibleConcat(a, init, showHidden);
    }
  }

  lemma VisibleSplit(items: seq<ListItem>, k: nat, showHidden: bool)
    requires k <= |items|
    ensures Visible(items, showHidden) == Visible(items[..k], showHidden) + Visible(items[k..], showHidden)
  {
    assert items == items[..k] + items[k..];
    VisibleConcat(items[..k], items[k..], showHidden);
  }

  lemma PrefixFits(items: seq<ListItem>, k: nat, showHidden: bool)
    requires k <= |items| && AllFit(Visible(items, showHidden))
    ensures AllFit(Visible(items[..k], showHidden))
  {
    VisibleSplit(items, k, showHidden);
    var v := Visible(items[..k], showHidden);
    forall j | 0 <= j < |v| ensures PercentFits(v[j].percentage) {
      assert v[j] == Visible(items, showHidden)[j];
    }
  }

  /** list(ctx): command help for "help"; a runtime error when the daemon
      client cannot be made (`clientErr`, from warpcli.NewClient) or the
      list cannot be fetched; else the table or the fallback line.  `fetch`
      is the daemon's answer to the request the flags make. */
  method List(arg: string, cmdName: string, showCompleted: bool, showPending: bool, showAll: bool,
              showHidden: bool, clientErr: Option<string>,
              fetch: ListOpts -> Result<seq<ListItem>, string>)
    returns (out: ListOutcome)
    requires fetch(ListRequest(showCompleted, showPending, showAll)).Success? ==>
      AllFit(Visible(fetch(ListRequest(showCompleted, showPending, showAll)).value, showHidden))
    ensures arg == "help" ==> out == ListCommandHelp(cmdName)
    ensures arg != "help" && clientErr.Some? ==> out == ListRuntimeError("new_client", clientErr.value)
    ensures arg != "help" && clientErr.None? ==>
      var fetched := fetch(ListRequest(showCompleted, showPending, showAll));
      && (fetched.Failure? ==> out == ListRuntimeError("get_list", fetched.error))
      && (fetched.Success? && Visible(fetched.value, showHidden) == [] ==> out == ListPrinted(NoDownloads))
      && (fetched.Success? && Visible(fetched.value, showHidden) != [] ==>
            out == ListPrinted(TableHeader + RowsText(Visible(fetched.value, showHidden)) + TableFooter))
  {
    if arg == "help" {
      return ListCommandHelp(cmdName);
    }
    if clientErr.Some? {
      return ListRuntimeError("new_client", clientErr.value);
    }
    var fetched := fetch(ListRequest(showCompleted, showPending, showAll));
    if fetched.Failure? {
      return ListRuntimeError("get_list", fetched.error);
    }
    var txt := ListTable(fetched.value, showHidden);
    return ListPrinted(txt);
  }

  // ---------------------------------------------------------------------
  // info

  /** The request headers of `info`: one User-Agent header, valued
      getUserAgent(userAgent) (passed in as `agent`), only when a user agent
      was given. */
  function InfoHeaders(userAgent: string, agent: string): (h: seq<Header>)
    ensures userAgent == "" <==> h == []
    ensures h != [] ==> h == [Header(UserAgentKey, agent)]
  {
    if userAgent != "" then [Header(UserAgentKey, agent)] else []
  }

  /** The name `info` prints: the downloader's file name, or "not-defined". */
  function InfoFileName(fName: string): (r: string)
    ensures r != ""
    ensures fName != "" ==> r == fName
    ensures fName == "" ==> r == "not-defined"
  {
    if fName == "" then "not-defined" else fName
  }

  const Fetching := "warp: fetching details, please wait...\n"

  /** What NewDownloader reports back to `info`. */
  datatype Probed = Probed(fileName: string, contentLength: string)

  /** What `info` does, in order. */
  datatype InfoOutcome =
    | InfoUsageError(msg: string)                 // printErrWithCmdHelp(ctx, msg)
    | InfoCommandHelp(command: string)            // info help
    | InfoRuntimeError(step: string, msg: string) // printRuntimeErr(ctx, "info", step, err)
    | InfoPrinted(text: string)

  function FileInfoText(name: string, size: string): string
  {
    "\nFile Info\nName\t: " + name + "\nSize\t: " + size + "\n"
  }

  /** info(ctx): a usage error for no URL, the command help for "help";
      otherwise the waiting line, then the downloader error or the file's
      name and size.  `probe` is what NewDownloader returns for the
      headers `info` sends; `agent` is getUserAgent(userAgent). */
  function Info(arg: string, cmdName: string, userAgent: string, agent: string,
                probe: seq<Header> -> Result<Probed, string>): (r: seq<InfoOutcome>)
    ensures arg == "" ==> r == [InfoUsageError("no url provided")]
    ensures arg == "help" ==> r == [InfoCommandHelp(cmdName)]
    ensures arg != "" && arg != "help" ==>
      var probed := probe(InfoHeaders(userAgent, agent));
      && |r| == 2 && r[0] == InfoPrinted(Fetching)
      && (probed.Failure? ==> r[1] == InfoRuntimeError("new_downloader", probed.error))
      && (probed.Success? ==> r[1] == InfoPrinted(FileInfoText(InfoFileName(probed.value.fileName),
                                                                probed.value.contentLength)))
  {
    if arg == "" then [InfoUsageError("no url provided")]
    else if arg == "help" then [InfoCommandHelp(cmdName)]
    else
      [InfoPrinted(Fetching)]
      + match probe(InfoHeaders(userAgent, agent))
        case Failure(e) => [InfoRuntimeError("new_downloader", e)]
        case Success(d) => [InfoPrinted(FileInfoText(InfoFileName(d.fileName), d.contentLength))]
  }
}
