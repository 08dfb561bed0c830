/**
 * The remote image browser (UI.py): choosing the connector to browse, the page shown
 * for a directory, the info shown for a clicked image, the page buttons, and the
 * directory each tab browses. Widget construction is not modelled; a handler's
 * inputs and outputs are its parameters and results.
 */
module Ui {
  import opened Runtime
  import opened Text
  import opened Png
  import opened Config
  import opened ConfigProperties
  import opened Manager
  import opened Extension
  import opened Paging

  /** What `download(path)` returns: the image and its generation info. */
  datatype Download = Download(image: Image, info: map<string, string>)

  /**
   * The browsing operations `get_image_page` calls on the selected connector:
   * `traverse(dir)` lists a directory, `download(path)` fetches one file.
   */
  datatype Remote = Remote(traverse: string -> seq<string>, download: string -> Download)

  /** The six outputs of `get_image_page`, in order. */
  datatype PageResult = PageResult(images: seq<Image>, pageIndex: string, loadInfo: string,
                                   maxPageIndex: int, infos: seq<map<string, string>>, paths: seq<string>)

  const MessageOpen: string := "<div style='color:#999' align='center'>"
  const MessageClose: string := "</div>"

  /** The warning shown when no connector is selected. */
  function NoConnectionMessage(): string
  {
    MessageOpen + "No connection found" + MessageClose
  }

  /** The summary shown above a page: the listing's length and the page count it claims. */
  function SummaryMessage(length: nat): string
  {
    MessageOpen + NatToString(length) + " images in this directory, divided into "
      + NatToString(ShownPageCount(length)) + " pages" + MessageClose
  }

  /**
   * The connector `get_connetor(v, _)` picks for the selected index: row
   * `selected_index` of the SMB or SFTP settings (Python indexing, so -1 is the
   * last row), `None` for any other type. Indexing a `None` configuration raises
   * `TypeError`, a missing row `IndexError`, and a parser exception propagates.
   */
  function Selection(v: string, o: Options, index: int): (r: Result<Option<ConnectorId>>)
    ensures v != "SMB" && v != "SFTP" ==> r == Ok(None)
    ensures v == "SMB" ==>
      (r.Ok? <==> SmbConfig(o).Rows? && -|SmbConfig(o).rows| <= index < |SmbConfig(o).rows|)
    ensures v == "SFTP" ==>
      (r.Ok? <==> SftpConfig(o).Rows? && -|SftpConfig(o).rows| <= index < |SftpConfig(o).rows|)
    ensures r.Ok? && v == "SMB" ==>
      var rows := SmbConfig(o).rows;
      var k := if index < 0 then |rows| + index else index;
      && |rows[k]| == 9
      && r.value == Some(OverSmb(SmbParams(rows[k][0], rows[k][1], rows[k][2], rows[k][3], rows[k][4],
                                           rows[k][5], rows[k][6], rows[k][7], rows[k][8])))
    ensures r.Ok? && v == "SFTP" ==>
      var rows := SftpConfig(o).rows;
      var k := if index < 0 then |rows| + index else index;
      && |rows[k]| == 5
      && r.value == Some(OverSftp(SftpParams(rows[k][0], rows[k][1], rows[k][2], rows[k][3], rows[k][4])))
    ensures v == "SMB" && SmbConfig(o).Absent? ==> r == Raised(TypeError)
    ensures v == "SFTP" && SftpConfig(o).Absent? ==> r == Raised(TypeError)
    ensures v == "SMB" && SmbConfig(o).Raises? ==> r == Raised(SmbConfig(o).error)
    ensures v == "SFTP" && SftpConfig(o).Raises? ==> r == Raised(SftpConfig(o).error)
    ensures v == "SMB" && SmbConfig(o).Rows? && !(-|SmbConfig(o).rows| <= index < |SmbConfig(o).rows|) ==>
      r == Raised(IndexError)
    ensures v == "SFTP" && SftpConfig(o).Rows? && !(-|SftpConfig(o).rows| <= index < |SftpConfig(o).rows|) ==>
      r == Raised(IndexError)
  {
    if v == "SMB" then
      match SmbConfig(o)
      case Absent => Raised(TypeError)
      case Raises(e) => Raised(e)
      case Rows(rows) =>
        SmbRowsHaveNineFields(o);
        match Index(rows, index)
        case None => Raised(IndexError)
        case Some(row) =>
          Ok(Some(OverSmb(SmbParams(row[0], row[1], row[2], row[3], row[4], row[5], row[6], row[7], row[8]))))
    else if v == "SFTP" then
      match SftpConfig(o)
      case Absent => Raised(TypeError)
      case Raises(e) => Raised(e)
      case Rows(rows) =>
        SftpRowsHaveFiveFields(o);
        match Index(rows, index)
        case None => Raised(IndexError)
        case Some(row) => Ok(Some(OverSftp(SftpParams(row[0], row[1], row[2], row[3], row[4]))))
    else Ok(None)
  }

  /**
   * The browser's SMB connector number `i` is the save hook's connector number `i`:
   * both are built from row `i` of the SMB settings, and -1 selects the last one.
   */
  lemma SmbSelectionMatchesSetup(o: Options, i: int)
    requires SmbConfig(o).Rows? && -|Split(o.smbPath, ',')| <= i < |Split(o.smbPath, ',')|
    ensures var n := |Split(o.smbPath, ',')|;
      var k := if i < 0 then n + i else i;
      k < |PlannedSetup(o).connectors| && Selection("SMB", o, i) == Ok(Some(PlannedSetup(o).connectors[k]))
  {
    SmbRowCount(o);
    ConfigShaped(o);
    SmbRowsHaveNineFields(o);
    var rows := SmbConfig(o).rows;
    SetupOfStartsWithSmb(SmbConfig(o), SftpConfig(o), GDriveConfig(o));
    var k := if i < 0 then |rows| + i else i;
    assert PlannedSetup(o).connectors[..|rows|][k] == SmbConnectors(rows)[k];
  }

  /**
   * The browser's SFTP connector number `i` is the save hook's `i`-th SFTP connector,
   * which follows the SMB ones, whenever the save hook gets past the SMB parser.
   */
  lemma SftpSelectionMatchesSetup(o: Options, i: nat)
    requires !SmbConfig(o).Raises? && SftpConfig(o).Rows? && i < |Split(o.sftpUserPasswd, ',')|
    ensures var k := RowsOf(SmbConfig(o)) + i;
      k < |PlannedSetup(o).connectors| && Selection("SFTP", o, i) == Ok(Some(PlannedSetup(o).connectors[k]))
  {
    SftpRowCount(o);
    ConfigShaped(o);
    SftpRowsHaveFiveFields(o);
    var smb, sftp, gdrive := SmbConfig(o), SftpConfig(o), GDriveConfig(o);
    assert PlannedSetup(o) == SetupOf(smb, sftp, gdrive);
    SetupSftpAt(smb, sftp, gdrive, i);
    assert Index(sftp.rows, i) == Some(sftp.rows[i]);
  }

  /**
   * The browser's SFTP connector number `i` (-1 for the last) in terms of the
   * settings strings: host and port from the `i`-th ip:port entry, user and password
   * from the `i`-th user:passwd entry, and the `i`-th remote path.
   */
  lemma SftpSelectionFromSettings(o: Options, i: int)
    requires SftpConfig(o).Rows? && -|Split(o.sftpUserPasswd, ',')| <= i < |Split(o.sftpUserPasswd, ',')|
    ensures var up, ip, paths := Split(o.sftpUserPasswd, ','), Split(o.sftpIpPort, ','), Split(o.sftpRemotePath, ',');
      var k := if i < 0 then |up| + i else i;
      && k < |ip| && k < |paths| && |Split(up[k], ':')| >= 2 && |Split(ip[k], ':')| >= 2
      && Selection("SFTP", o, i) == Ok(Some(OverSftp(SftpParams(
           Split(ip[k], ':')[0], Split(up[k], ':')[0], Split(up[k], ':')[1], paths[k], Split(ip[k], ':')[1]))))
  {
    SftpConfigRowFields(o);
    SftpRowsHaveFiveFields(o);
  }

  /** The `dir_name` settings of the web UI's output directories. */
  datatype OutputDirs = OutputDirs(txt2imgSamples: string, img2imgSamples: string, txt2imgGrids: string,
                                   img2imgGrids: string, extras: string)

  /** The output directory a tab browses; any tab name not listed gets the extras directory. */
  function OutputDirForTab(tab: string, dirs: OutputDirs): string
  {
    if tab == "txt2img" then dirs.txt2imgSamples
    else if tab == "img2img" then dirs.img2imgSamples
    else if tab == "txt2img-grids" then dirs.txt2imgGrids
    else if tab == "img2img-grids" then dirs.img2imgGrids
    else dirs.extras
  }

  /**
   * `create_tab`'s `dir_name`: the last '/'-segment of the tab's output directory,
   * the directory name the connector lists.
   */
  function DirNameForTab(tab: string, dirs: OutputDirs): (name: string)
    ensures var d := OutputDirForTab(tab, dirs);
      && '/' !in name
      && |name| <= |d| && d[|d| - |name|..] == name
      && (|name| == |d| || d[|d| - |name| - 1] == '/')
  {
    LastSegmentIsSuffix(OutputDirForTab(tab, dirs), '/');
    LastSegment(OutputDirForTab(tab, dirs), '/')
  }

  /** First Page: page 1, dispatcher negated. */
  function FirstPage(s: int): (r: (int, int))
  {
    (1, -s)
  }

  /** Next Page: the page after the shown one, dispatcher negated. */
  function NextPage(p: int, s: int): (r: (int, int))
  {
    (p + 1, -s)
  }

  /** Prev Page: the page before the shown one, dispatcher negated. */
  function PrevPage(p: int, s: int): (r: (int, int))
  {
    (p - 1, -s)
  }

  /** End Page: the last-page sentinel -1, dispatcher negated. */
  function EndPage(s: int): (r: (int, int))
  {
    (-1, -s)
  }

  /** Submitting the page index: the dispatcher negated. */
  function SubmitPage(s: int): (r: int)
  {
    -s
  }

  /**
   * Every button changes the dispatcher unless it is 0, and so triggers a page load;
   * the page it asks for resolves to page 1, the neighbour within range, or the last
   * page. Prev on page 0 asks for -1 and lands on the last page.
   */
  lemma {:induction false} NavigationResolves(p: int, s: int, maxPage: nat)
    requires maxPage >= 1
    ensures s != 0 ==> FirstPage(s).1 != s && NextPage(p, s).1 != s && PrevPage(p, s).1 != s
                       && EndPage(s).1 != s && SubmitPage(s) != s
    ensures FirstPage(s).1 == NextPage(p, s).1 == PrevPage(p, s).1 == EndPage(s).1 == SubmitPage(s) == -s
    ensures ResolvePageIndex(FirstPage(s).0, maxPage) == 1
    ensures ResolvePageIndex(EndPage(s).0, maxPage) == maxPage
    ensures 1 <= p < maxPage ==> ResolvePageIndex(NextPage(p, s).0, maxPage) == p + 1
    ensures p >= maxPage ==> ResolvePageIndex(NextPage(p, s).0, maxPage) == maxPage
    ensures 1 < p <= maxPage + 1 ==> ResolvePageIndex(PrevPage(p, s).0, maxPage) == p - 1
    ensures p == 1 ==> ResolvePageIndex(PrevPage(p, s).0, maxPage) == 1
    ensures p == 0 ==> ResolvePageIndex(PrevPage(p, s).0, maxPage) == maxPage
  {
    var first, next, prev, end := FirstPage(s), NextPage(p, s), PrevPage(p, s), EndPage(s);
    assert first == (1, -s) && end == (-1, -s);
    assert next == (p + 1, -s) && prev == (p - 1, -s);
  }

  /** `set_image_info(i, infos, names)`: the `"parameters"` entry and the file name at index `i`. */
  function SetImageInfo(imageIndex: int, infos: seq<map<string, string>>, fileNames: seq<string>): (r: Result<(string, string)>)
    ensures r.Ok? <==> Index(infos, imageIndex).Some? && "parameters" in Index(infos, imageIndex).value
                       && Index(fileNames, imageIndex).Some?
    ensures Index(infos, imageIndex).None? ==> r == Raised(IndexError)
    ensures Index(infos, imageIndex).Some? && "parameters" !in Index(infos, imageIndex).value ==> r == Raised(KeyError)
    ensures Index(infos, imageIndex).Some? && "parameters" in Index(infos, imageIndex).value && Index(fileNames, imageIndex).None?
      ==> r == Raised(IndexError)
    ensures r.Ok? ==> r.value == (Index(infos, imageIndex).value["parameters"], Index(fileNames, imageIndex).value)
  {
    match Index(infos, imageIndex)
    case None => Raised(IndexError)
    case Some(info) =>
      if "parameters" !in info then Raised(KeyError)
      else
        match Index(fileNames, imageIndex)
        case None => Raised(IndexError)
        case Some(name) => Ok((info["parameters"], name))
  }

  /** The browsing state of the UI. */
  class UI {
    const manager: ConnectorManager
    var selectedType: string
    var selectedIndex: int
    /** The connector being browsed, if any. */
    var connector: Option<ConnectorId>
    var connectionType: string
    var imgList: seq<string>

    /**
     * `__init__`: 60 images per page, SMB connector 0 selected and connected. Where
     * `__init__` would raise, the model leaves the connector `None`.
     */
    constructor(manager: ConnectorManager, o: Options)
      modifies manager
      ensures this.manager == manager
      ensures selectedType == "SMB" && selectedIndex == 0 && connectionType == "SMB" && imgList == []
      ensures var sel := Selection("SMB", o, 0);
        connector == (if sel.Ok? then sel.value else None)
      ensures manager.connectors == old(manager.connectors)
      ensures var sel := Selection("SMB", o, 0);
        manager.trace == old(manager.trace) + (if sel.Ok? && sel.value.Some? then [Construct(sel.value.value)] else [])
    {
      this.manager := manager;
      selectedType, selectedIndex := "SMB", 0;
      connector := None;
      connectionType := "SMB";
      imgList := [];
      new;
      var _ := GetConnector("SMB", 1, o);
    }

    /**
     * `get_connetor(v, s)`: connect to the selected row of the chosen type through
     * the manager, or select nothing for another type; return `-s`.
     */
    method GetConnector(v: string, s: int, o: Options) returns (r: Result<int>)
      modifies this, manager
      ensures var sel := Selection(v, o, old(selectedIndex));
        && r == (if sel.Ok? then Ok(-s) else Raised(sel.error))
        && connector == (if sel.Ok? then sel.value else old(connector))
        && manager.trace == old(manager.trace) + (if sel.Ok? && sel.value.Some? then [Construct(sel.value.value)] else [])
      ensures manager.connectors == old(manager.connectors)
      ensures selectedIndex == old(selectedIndex) && selectedType == old(selectedType)
      ensures connectionType == old(connectionType) && imgList == old(imgList)
    {
      if v == "SMB" {
        var config := GetSmbConfig(o);
        if config.Absent? {
          return Raised(TypeError);
        }
        if config.Raises? {
          return Raised(config.error);
        }
        SmbRowsHaveNineFields(o);
        var selected := Index(config.rows, selectedIndex);
        if selected.None? {
          return Raised(IndexError);
        }
        var sc := selected.value;
        var c := manager.UiGetSmbConnector(sc[0], sc[1], sc[2], sc[3], sc[4], sc[5], sc[6], sc[7], sc[8]);
        connector := Some(c);
      } else if v == "SFTP" {
        var config := GetSftpConfig(o);
        if config.Absent? {
          return Raised(TypeError);
        }
        if config.Raises? {
          return Raised(config.error);
        }
        SftpRowsHaveFiveFields(o);
        var selected := Index(config.rows, selectedIndex);
        if selected.None? {
          return Raised(IndexError);
        }
        var sc := selected.value;
        var c := manager.UiGetSftpConnector(sc[0], sc[1], sc[2], sc[3], sc[4]);
        connector := Some(c);
      } else {
        connector := None;
      }
      return Ok(-s);
    }

    /** `change_connector(n, renew)`: remember the selected index, return `-renew`. */
    method ChangeConnector(connectorNo: int, renew: int) returns (r: int)
      modifies this
      ensures selectedIndex == connectorNo && r == -renew
      ensures connector == old(connector) && selectedType == old(selectedType)
      ensures connectionType == old(connectionType) && imgList == old(imgList)
    {
      selectedIndex := connectorNo;
      return -renew;
    }

    /**
     * `get_image_page(dir, page_index)`: without a connector, the fixed empty page;
     * otherwise the resolved page of the newest-first listing, each path downloaded
     * in order, with the page index as a string and the last page index.
     */
    function GetImagePage(imgPath: string, pageIndexParam: int, remote: Remote): (r: PageResult)
      reads this
      ensures connector.None? ==> r == PageResult([], "1", NoConnectionMessage(), 1, [], [])
      ensures connector.Some? ==>
        var listing := remote.traverse(imgPath);
        var maxPage := MaxPageIndex(|listing|);
        var page := ResolvePageIndex(pageIndexParam, maxPage);
        && r.maxPageIndex == maxPage
        && r.pageIndex == NatToString(page)
        && r.loadInfo == SummaryMessage(|listing|)
        && r.paths == PageWindow(Reversed(listing), page)
        && |r.paths| == (if PageStart(page) >= |listing| then 0 else Min(PageSize, |listing| - PageStart(page)))
        && (forall i :: 0 <= i < |r.paths| ==>
              PageStart(page) + i < |listing| && r.paths[i] == listing[|listing| - 1 - (PageStart(page) + i)])
        && |r.images| == |r.paths| && |r.infos| == |r.paths|
        && (forall i :: 0 <= i < |r.paths| ==>
              r.images[i] == remote.download(r.paths[i]).image && r.infos[i] == remote.download(r.paths[i]).info)
    {
      if connector.None? then PageResult([], "1", NoConnectionMessage(), 1, [], [])
      else
        var filenames := Reversed(remote.traverse(imgPath));
        var length := |filenames|;
        var maxPage := MaxPageIndex(length);
        var page := ResolvePageIndex(pageIndexParam, maxPage);
        var paths := PageWindow(filenames, page);
        PageWindowContents(filenames, page);
        var downloads := seq(|paths|, i requires 0 <= i < |paths| => remote.download(paths[i]));
        PageResult(seq(|paths|, i requires 0 <= i < |paths| => downloads[i].image), NatToString(page),
                   SummaryMessage(length), maxPage,
                   seq(|paths|, i requires 0 <= i < |paths| => downloads[i].info), paths)
    }

    /**
     * Clicking image `i` of a shown page displays the generation parameters and the
     * path that were downloaded for entry `i`.
     */
    lemma ClickedImageInfo(imgPath: string, pageIndexParam: int, remote: Remote, i: nat)
      requires connector.Some?
      requires i < |GetImagePage(imgPath, pageIndexParam, remote).paths|
      requires "parameters" in remote.download(GetImagePage(imgPath, pageIndexParam, remote).paths[i]).info
      ensures var page := GetImagePage(imgPath, pageIndexParam, remote);
        SetImageInfo(i, page.infos, page.paths)
          == Ok((remote.download(page.paths[i]).info["parameters"], page.paths[i]))
    {
    }

    /** The first page starts with the entry listed last, and the last page index is reachable. */
    lemma NewestFirst(imgPath: string, remote: Remote)
      requires connector.Some? && |remote.traverse(imgPath)| > 0
      ensures var listing := remote.traverse(imgPath);
        var first := GetImagePage(imgPath, 1, remote);
        && |first.paths| > 0 && first.paths[0] == listing[|listing| - 1]
        && GetImagePage(imgPath, -1, remote).pageIndex == NatToString(MaxPageIndex(|listing|))
    {
      var listing := remote.traverse(imgPath);
      PageWindowContents(Reversed(listing), 1);
    }
  }
}
