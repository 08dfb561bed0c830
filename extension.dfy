/**
 * The extension's entry points (scripts/main.py): building the connector list from the
 * settings, the image-save hook, and the start-up authentication. The settings are
 * passed in as `Options`; the manager is the shared `ConnectorManager`.
 */
module Extension {
  import opened Runtime
  import opened Text
  import opened Png
  import opened Config
  import opened ConfigProperties
  import opened Manager

  /** The connectors built from the SMB rows, in row order. */
  function SmbConnectors(rows: seq<seq<string>>): (cs: seq<ConnectorId>)
    requires forall i :: 0 <= i < |rows| ==> |rows[i]| == 9
    ensures |cs| == |rows|
    ensures forall i :: 0 <= i < |rows| ==>
      cs[i] == OverSmb(SmbParams(rows[i][0], rows[i][1], rows[i][2], rows[i][3], rows[i][4],
                                 rows[i][5], rows[i][6], rows[i][7], rows[i][8]))
  {
    seq(|rows|, i requires 0 <= i < |rows| =>
      OverSmb(SmbParams(rows[i][0], rows[i][1], rows[i][2], rows[i][3], rows[i][4],
                        rows[i][5], rows[i][6], rows[i][7], rows[i][8])))
  }

  /** The connectors built from the SFTP rows, in row order. */
  function SftpConnectors(rows: seq<seq<string>>): (cs: seq<ConnectorId>)
    requires forall i :: 0 <= i < |rows| ==> |rows[i]| == 5
    ensures |cs| == |rows|
    ensures forall i :: 0 <= i < |rows| ==>
      cs[i] == OverSftp(SftpParams(rows[i][0], rows[i][1], rows[i][2], rows[i][3], rows[i][4]))
  {
    seq(|rows|, i requires 0 <= i < |rows| =>
      OverSftp(SftpParams(rows[i][0], rows[i][1], rows[i][2], rows[i][3], rows[i][4])))
  }

  /** Every row of a parsed setting has `n` fields. */
  predicate Shaped(p: Parsed, n: nat)
  {
    p.Rows? ==> forall i :: 0 <= i < |p.rows| ==> |p.rows[i]| == n
  }

  /** What `setup_connectors` appends, and the exception that stops it, if any. */
  datatype Setup = Setup(connectors: seq<ConnectorId>, error: Option<Error>)

  /** The SMB connectors a parser result asks for: one per row, none without rows. */
  function SmbPart(smb: Parsed): seq<ConnectorId>
    requires Shaped(smb, 9)
  {
    if smb.Rows? then SmbConnectors(smb.rows) else []
  }

  /** The SFTP connectors a parser result asks for: one per row, none without rows. */
  function SftpPart(sftp: Parsed): seq<ConnectorId>
    requires Shaped(sftp, 5)
  {
    if sftp.Rows? then SftpConnectors(sftp.rows) else []
  }

  /** The Google Drive connector the settings ask for, if any. */
  function GDrivePart(gdrive: Option<(string, string)>): seq<ConnectorId>
  {
    if gdrive.Some? then [OverGDrive(gdrive.value.0, gdrive.value.1)] else []
  }

  /**
   * `setup_connectors` on the parsers' results: SMB rows first, then SFTP rows, then
   * Google Drive. A parser exception ends the setup, keeping the connectors appended
   * before it.
   */
  function SetupOf(smb: Parsed, sftp: Parsed, gdrive: Option<(string, string)>): Setup
    requires Shaped(smb, 9) && Shaped(sftp, 5)
  {
    if smb.Raises? then Setup([], Some(smb.error))
    else if sftp.Raises? then Setup(SmbPart(smb), Some(sftp.error))
    else Setup(SmbPart(smb) + SftpPart(sftp) + GDrivePart(gdrive), None)
  }

  /** The connectors and construction calls of a setup, as its three stages append them. */
  lemma SetupOfStages(smb: Parsed, sftp: Parsed, gdrive: Option<(string, string)>, c0: seq<ConnectorId>, t0: seq<Call>)
    requires Shaped(smb, 9) && Shaped(sftp, 5) && !smb.Raises?
    ensures var s, a := SetupOf(smb, sftp, gdrive), SmbPart(smb);
      sftp.Raises? ==> c0 + a == c0 + s.connectors && t0 + Constructs(a) == t0 + Constructs(s.connectors)
    ensures var s, a, b, c := SetupOf(smb, sftp, gdrive), SmbPart(smb), SftpPart(sftp), GDrivePart(gdrive);
      !sftp.Raises? ==>
        && c0 + a + b + c == c0 + s.connectors
        && t0 + Constructs(a) + Constructs(b) + Constructs(c) == t0 + Constructs(s.connectors)
  {
    var a, b, c := SmbPart(smb), SftpPart(sftp), GDrivePart(gdrive);
    if !sftp.Raises? {
      var cs := SetupOf(smb, sftp, gdrive).connectors;
      assert cs == a + b + c;
      AppendAssociative(c0, a, b);
      AppendAssociative(c0, a + b, c);
      ConstructsAppend(a, b);
      ConstructsAppend(a + b, c);
      var ta, tb, tc := Constructs(a), Constructs(b), Constructs(c);
      assert Constructs(cs) == ta + tb + tc;
      AppendAssociative(t0, ta, tb);
      AppendAssociative(t0, ta + tb, tc);
    }
  }

  /** Both parsers' rows have the fields the connectors' constructors take. */
  lemma ConfigShaped(o: Options)
    ensures Shaped(SmbConfig(o), 9) && Shaped(SftpConfig(o), 5)
  {
    if SmbConfig(o).Rows? {
      SmbRowsHaveNineFields(o);
    }
    if SftpConfig(o).Rows? {
      SftpRowsHaveFiveFields(o);
    }
  }

  /** What `setup_connectors` does with the extension's settings. */
  function PlannedSetup(o: Options): Setup
  {
    ConfigShaped(o);
    SetupOf(SmbConfig(o), SftpConfig(o), GDriveConfig(o))
  }

  /** The construction calls for `cs`, in order. */
  function Constructs(cs: seq<ConnectorId>): (calls: seq<Call>)
    ensures |calls| == |cs|
    ensures forall i :: 0 <= i < |cs| ==> calls[i] == Construct(cs[i])
  {
    seq(|cs|, i requires 0 <= i < |cs| => Construct(cs[i]))
  }

  /** The position of a connector kind in the order `setup_connectors` builds them. */
  function Rank(c: ConnectorId): nat
  {
    match c
    case OverSmb(_) => 0
    case OverSftp(_) => 1
    case OverGDrive(_, _) => 2
  }

  /** The first loop of `setup_connectors`: one `create_smb_connector` call per row. */
  method AppendSmbConnectors(manager: ConnectorManager, rows: seq<seq<string>>)
    requires forall i :: 0 <= i < |rows| ==> |rows[i]| == 9
    modifies manager
    ensures manager.connectors == old(manager.connectors) + SmbConnectors(rows)
    ensures manager.trace == old(manager.trace) + Constructs(SmbConnectors(rows))
  {
    for i := 0 to |rows|
      invariant manager.connectors == old(manager.connectors) + SmbConnectors(rows[..i])
      invariant manager.trace == old(manager.trace) + Constructs(SmbConnectors(rows[..i]))
    {
      var setting := rows[i];
      manager.CreateSmbConnector(setting[0], setting[1], setting[2], setting[3], setting[4],
                                 setting[5], setting[6], setting[7], setting[8]);
      assert SmbConnectors(rows[..i + 1]) == SmbConnectors(rows[..i]) + [SmbConnectors(rows)[i]];
    }
    assert rows[..|rows|] == rows;
  }

  /** The second loop of `setup_connectors`: one `create_sftp_connector` call per row. */
  method AppendSftpConnectors(manager: ConnectorManager, rows: seq<seq<string>>)
    requires forall i :: 0 <= i < |rows| ==> |rows[i]| == 5
    modifies manager
    ensures manager.connectors == old(manager.connectors) + SftpConnectors(rows)
    ensures manager.trace == old(manager.trace) + Constructs(SftpConnectors(rows))
  {
    for i := 0 to |rows|
      invariant manager.connectors == old(manager.connectors) + SftpConnectors(rows[..i])
      invariant manager.trace == old(manager.trace) + Constructs(SftpConnectors(rows[..i]))
    {
      var setting := rows[i];
      manager.CreateSftpConnector(setting[0], setting[1], setting[2], setting[3], setting[4]);
      assert SftpConnectors(rows[..i + 1]) == SftpConnectors(rows[..i]) + [SftpConnectors(rows)[i]];
    }
    assert rows[..|rows|] == rows;
  }

  /** Concatenation is associative. */
  lemma AppendAssociative<T>(a: seq<T>, b: seq<T>, c: seq<T>)
    ensures (a + b) + c == a + (b + c)
  {
  }

  /** Construction calls of consecutive lists concatenate. */
  lemma ConstructsAppend(a: seq<ConnectorId>, b: seq<ConnectorId>)
    ensures Constructs(a + b) == Constructs(a) + Constructs(b)
  {
  }

  /** `setup_connectors(manager, config)`. */
  method SetupConnectors(manager: ConnectorManager, o: Options) returns (r: Result<()>)
    modifies manager
    ensures manager.connectors == old(manager.connectors) + PlannedSetup(o).connectors
    ensures manager.trace == old(manager.trace) + Constructs(PlannedSetup(o).connectors)
    ensures r.Ok? <==> PlannedSetup(o).error.None?
    ensures r.Raised? ==> r.error == PlannedSetup(o).error.value
  {
    ConfigShaped(o);
    ghost var c0, t0 := manager.connectors, manager.trace;
    var smb := GetSmbConfig(o);
    if smb.Raises? {
      assert manager.connectors == c0 + [] && manager.trace == t0 + [];
      return Raised(smb.error);
    }
    if smb.Rows? {
      AppendSmbConnectors(manager, smb.rows);
    } else {
      assert manager.connectors == c0 + [] && manager.trace == t0 + [];
    }
    ghost var c1, t1 := manager.connectors, manager.trace;
    ghost var a := SmbPart(smb);
    assert c1 == c0 + a && t1 == t0 + Constructs(a);
    var sftp := GetSftpConfig(o);
    ghost var plan := SetupOf(smb, sftp, GDriveConfig(o));
    assert plan == PlannedSetup(o);
    SetupOfStages(smb, sftp, GDriveConfig(o), c0, t0);
    if sftp.Raises? {
      return Raised(sftp.error);
    }
    if sftp.Rows? {
      AppendSftpConnectors(manager, sftp.rows);
    } else {
      assert manager.connectors == c1 + [] && manager.trace == t1 + [];
    }
    ghost var c2, t2 := manager.connectors, manager.trace;
    ghost var b := SftpPart(sftp);
    assert c2 == c0 + a + b && t2 == t0 + Constructs(a) + Constructs(b);
    var gdrive := GDriveConfig(o);
    ghost var c := GDrivePart(gdrive);
    if gdrive.Some? {
      manager.CreateGdriveConnector(gdrive.value.0, gdrive.value.1, false);
      assert Constructs(c) == [Construct(c[0])];
    } else {
      assert manager.connectors == c2 + [] && manager.trace == t2 + [];
    }
    assert manager.connectors == c2 + c && manager.trace == t2 + Constructs(c);
    assert manager.connectors == c0 + a + b + c && manager.trace == t0 + Constructs(a) + Constructs(b) + Constructs(c);
    return Ok(());
  }

  /** How many rows a parser returned. */
  function RowsOf(p: Parsed): nat
  {
    if p.Rows? then |p.rows| else 0
  }

  /** A complete setup lists the SMB connectors, then the SFTP ones, then Google Drive's. */
  lemma SetupOfOrdered(smb: Parsed, sftp: Parsed, gdrive: Option<(string, string)>)
    requires Shaped(smb, 9) && Shaped(sftp, 5)
    requires SetupOf(smb, sftp, gdrive).error.None?
    ensures var cs := SetupOf(smb, sftp, gdrive).connectors;
      && |cs| == RowsOf(smb) + RowsOf(sftp) + (if gdrive.Some? then 1 else 0)
      && forall i, j :: 0 <= i < j < |cs| ==> Rank(cs[i]) <= Rank(cs[j])
  {
    var a, b, c := SmbPart(smb), SftpPart(sftp), GDrivePart(gdrive);
    var cs := SetupOf(smb, sftp, gdrive).connectors;
    assert cs == a + b + c;
    forall i | 0 <= i < |cs| ensures Rank(cs[i]) == if i < |a| then 0 else if i < |a| + |b| then 1 else 2 {
      if i < |a| {
        assert cs[i] == a[i];
      } else if i < |a| + |b| {
        assert cs[i] == b[i - |a|];
      } else {
        assert cs[i] == c[i - |a| - |b|];
      }
    }
  }

  /** The SMB parser returns one row per path entry. */
  lemma SmbRowCount(o: Options)
    requires SmbConfig(o).Rows?
    ensures |SmbConfig(o).rows| == |Split(o.smbPath, ',')|
  {
    SmbConfigRowFields(o);
  }

  /** The SFTP parser returns one row per user:passwd entry. */
  lemma SftpRowCount(o: Options)
    requires SftpConfig(o).Rows?
    ensures |SftpConfig(o).rows| == |Split(o.sftpUserPasswd, ',')|
  {
    SftpConfigRowFields(o);
  }

  /**
   * A complete setup builds one SMB connector per SMB path entry, one SFTP connector
   * per SFTP user:passwd entry and one Google Drive connector when both of its
   * settings are set, in that order.
   */
  lemma SetupCountAndOrder(o: Options)
    requires PlannedSetup(o).error.None?
    ensures var cs := PlannedSetup(o).connectors;
      && |cs| == (if SmbConfig(o).Rows? then |Split(o.smbPath, ',')| else 0)
              + (if SftpConfig(o).Rows? then |Split(o.sftpUserPasswd, ',')| else 0)
              + (if GDriveConfig(o).Some? then 1 else 0)
      && forall i, j :: 0 <= i < j < |cs| ==> Rank(cs[i]) <= Rank(cs[j])
  {
    ConfigShaped(o);
    SetupOfOrdered(SmbConfig(o), SftpConfig(o), GDriveConfig(o));
    if SmbConfig(o).Rows? {
      SmbRowCount(o);
    }
    if SftpConfig(o).Rows? {
      SftpRowCount(o);
    }
  }

  /** The first connectors of a setup that got past the SMB parser are built from its rows. */
  lemma SetupOfStartsWithSmb(smb: Parsed, sftp: Parsed, gdrive: Option<(string, string)>)
    requires Shaped(smb, 9) && Shaped(sftp, 5) && smb.Rows?
    ensures |SmbConnectors(smb.rows)| <= |SetupOf(smb, sftp, gdrive).connectors|
    ensures SetupOf(smb, sftp, gdrive).connectors[..|smb.rows|] == SmbConnectors(smb.rows)
  {
  }

  /** The SFTP connectors of a setup that got past both parsers follow the SMB ones. */
  lemma SetupOfSftpAfterSmb(smb: Parsed, sftp: Parsed, gdrive: Option<(string, string)>)
    requires Shaped(smb, 9) && Shaped(sftp, 5) && !smb.Raises? && sftp.Rows?
    ensures RowsOf(smb) + |sftp.rows| <= |SetupOf(smb, sftp, gdrive).connectors|
    ensures SetupOf(smb, sftp, gdrive).connectors[RowsOf(smb)..RowsOf(smb) + |sftp.rows|] == SftpConnectors(sftp.rows)
  {
    var a, c := SmbPart(smb), GDrivePart(gdrive);
    assert SetupOf(smb, sftp, gdrive).connectors == a + SftpConnectors(sftp.rows) + c;
  }

  /** The setup's connector after the SMB ones and `i` SFTP ones is built from SFTP row `i`. */
  lemma SetupSftpAt(smb: Parsed, sftp: Parsed, gdrive: Option<(string, string)>, i: nat)
    requires Shaped(smb, 9) && Shaped(sftp, 5) && !smb.Raises? && sftp.Rows? && i < |sftp.rows|
    ensures var cs, row := SetupOf(smb, sftp, gdrive).connectors, sftp.rows[i];
      RowsOf(smb) + i < |cs| && cs[RowsOf(smb) + i] == OverSftp(SftpParams(row[0], row[1], row[2], row[3], row[4]))
  {
    var cs, skip := SetupOf(smb, sftp, gdrive).connectors, RowsOf(smb);
    SetupOfSftpAfterSmb(smb, sftp, gdrive);
    assert cs[skip + i] == cs[skip..skip + |sftp.rows|][i];
  }

  /**
   * The `i`-th SMB connector is built from the `i`-th entry of every SMB setting:
   * save directory from the path list, credentials, server and service names, domain
   * and address from the matching ':'-pairs, and "local" as its local name.
   */
  lemma SmbConnectorFromSettings(o: Options, i: nat)
    requires SmbConfig(o).Rows? && i < |Split(o.smbPath, ',')|
    ensures var up, ip, ss := Split(o.smbUserPasswd, ','), Split(o.smbIpPort, ','), Split(o.smbServerNameServiceName, ',');
      && i < |PlannedSetup(o).connectors| && i < |up| && i < |ip| && i < |ss| && i < |Split(o.smbDomain, ',')|
      && |Split(up[i], ':')| >= 2 && |Split(ip[i], ':')| >= 2 && |Split(ss[i], ':')| >= 2
      && PlannedSetup(o).connectors[i] == OverSmb(SmbParams(
           Split(up[i], ':')[0], Split(up[i], ':')[1], "local", Split(ss[i], ':')[0], Split(ss[i], ':')[1],
           Split(o.smbDomain, ',')[i], Split(ip[i], ':')[0], Split(ip[i], ':')[1], Split(o.smbPath, ',')[i]))
  {
    SmbConfigRowFields(o);
    ConfigShaped(o);
    var rows := SmbConfig(o).rows;
    SetupOfStartsWithSmb(SmbConfig(o), SftpConfig(o), GDriveConfig(o));
    var cs := PlannedSetup(o).connectors;
    assert cs[..|rows|][i] == SmbConnectors(rows)[i];
  }

  /** The `save_image` calls and what `before_unload` is reached for, after a setup that built `cs`. */
  function SaveCalls(cs: seq<ConnectorId>, name: string, image: Image, pngInfo: PngInfo, driveSignedIn: bool): seq<Call>
  {
    StoreCalls(Attempted(cs, name, driveSignedIn), name, image, pngInfo)
      + (if FirstRaising(cs, name, driveSignedIn) < |cs| then [] else UnloadCalls(cs))
  }

  /** What `save_image_callback` raises, if anything: a parser's exception, else that of the first `store_file` that raises. */
  function CallbackResult(s: Setup, name: string, driveSignedIn: bool): Result<()>
  {
    if s.error.Some? then Raised(s.error.value)
    else
      var k := FirstRaising(s.connectors, name, driveSignedIn);
      if k < |s.connectors| then Raised(StoreOutcome(s.connectors[k], name, driveSignedIn).value) else Ok(())
  }

  /** Every call `save_image_callback` makes on a connector, in order. */
  function CallbackTrace(s: Setup, name: string, image: Image, pngInfo: PngInfo, driveSignedIn: bool): seq<Call>
  {
    Constructs(s.connectors) + (if s.error.Some? then [] else SaveCalls(s.connectors, name, image, pngInfo, driveSignedIn))
  }

  /**
   * `save_image_callback`: forget the previous connectors, build them again from the
   * settings, send the image to each, then unload each. An exception stops the
   * sequence where it is raised. `driveSignedIn` is whether the Google Drive
   * connector's authentication left it with credentials.
   */
  method SaveImageCallback(manager: ConnectorManager, o: Options, image: Image, name: string, pngInfo: PngInfo, driveSignedIn: bool)
    returns (r: Result<()>)
    modifies manager
    ensures manager.connectors == PlannedSetup(o).connectors
    ensures manager.trace == old(manager.trace) + CallbackTrace(PlannedSetup(o), name, image, pngInfo, driveSignedIn)
    ensures r == CallbackResult(PlannedSetup(o), name, driveSignedIn)
  {
    ghost var setup := PlannedSetup(o);
    ghost var trace0 := manager.trace;
    manager.Reset();
    r := SetupConnectors(manager, o);
    ghost var cs := manager.connectors;
    assert cs == setup.connectors;
    CallbackTraceShapes(setup, trace0, name, image, pngInfo, driveSignedIn);
    if r.Raised? {
      assert manager.trace == trace0 + Constructs(cs);
      return;
    }
    assert setup.error.None?;
    ghost var k := FirstRaising(cs, name, driveSignedIn);
    ghost var stores := StoreCalls(Attempted(cs, name, driveSignedIn), name, image, pngInfo);
    r := manager.SaveImage(image, name, pngInfo, driveSignedIn);
    if r.Raised? {
      assert k < |cs| && r == CallbackResult(setup, name, driveSignedIn);
      assert manager.trace == trace0 + Constructs(cs) + stores;
      return;
    }
    assert k == |cs|;
    manager.BeforeUnload();
    r := Ok(());
    assert manager.trace == trace0 + Constructs(cs) + stores + UnloadCalls(cs);
  }

  /** The trace of the callback on each of its three exits, as the steps build it. */
  lemma CallbackTraceShapes(setup: Setup, t0: seq<Call>, name: string, image: Image, pngInfo: PngInfo, driveSignedIn: bool)
    ensures var cs := setup.connectors;
      setup.error.Some? ==> t0 + Constructs(cs) == t0 + CallbackTrace(setup, name, image, pngInfo, driveSignedIn)
    ensures var cs, stores := setup.connectors, StoreCalls(Attempted(setup.connectors, name, driveSignedIn), name, image, pngInfo);
      setup.error.None? && FirstRaising(cs, name, driveSignedIn) < |cs| ==>
        t0 + Constructs(cs) + stores == t0 + CallbackTrace(setup, name, image, pngInfo, driveSignedIn)
    ensures var cs, stores := setup.connectors, StoreCalls(Attempted(setup.connectors, name, driveSignedIn), name, image, pngInfo);
      setup.error.None? && FirstRaising(cs, name, driveSignedIn) == |cs| ==>
        t0 + Constructs(cs) + stores + UnloadCalls(cs) == t0 + CallbackTrace(setup, name, image, pngInfo, driveSignedIn)
  {
    var cs, k := setup.connectors, FirstRaising(setup.connectors, name, driveSignedIn);
    var stores := StoreCalls(Attempted(cs, name, driveSignedIn), name, image, pngInfo);
    var built := Constructs(cs);
    if setup.error.None? {
      var saves := SaveCalls(cs, name, image, pngInfo, driveSignedIn);
      assert CallbackTrace(setup, name, image, pngInfo, driveSignedIn) == built + saves;
      if k < |cs| {
        assert saves == stores + [];
        AppendAssociative(t0, built, stores);
      } else {
        assert saves == stores + UnloadCalls(cs);
        AppendAssociative(t0, built, stores);
        AppendAssociative(t0 + built, stores, UnloadCalls(cs));
        AppendAssociative(t0, built, stores + UnloadCalls(cs));
      }
    }
  }

  /** A complete setup whose first connector raises: that one `store_file` call after the constructions. */
  lemma TraceStoppedAtFirst(s: Setup, name: string, image: Image, pngInfo: PngInfo, driveSignedIn: bool)
    requires s.error.None? && |s.connectors| > 0 && FirstRaising(s.connectors, name, driveSignedIn) == 0
    ensures CallbackTrace(s, name, image, pngInfo, driveSignedIn)
      == Constructs(s.connectors) + [Store(s.connectors[0], name, image, pngInfo)]
  {
    var cs := s.connectors;
    assert Attempted(cs, name, driveSignedIn) == [cs[0]];
    assert SaveCalls(cs, name, image, pngInfo, driveSignedIn) == [Store(cs[0], name, image, pngInfo)];
  }

  /** A complete setup whose last connector alone raises: every `store_file` call, no unload. */
  lemma TraceStoppedAtLast(s: Setup, name: string, image: Image, pngInfo: PngInfo, driveSignedIn: bool)
    requires s.error.None? && |s.connectors| > 0 && FirstRaising(s.connectors, name, driveSignedIn) == |s.connectors| - 1
    ensures CallbackTrace(s, name, image, pngInfo, driveSignedIn)
      == Constructs(s.connectors) + StoreCalls(s.connectors, name, image, pngInfo)
  {
    var cs := s.connectors;
    assert Attempted(cs, name, driveSignedIn) == cs[..|cs|] == cs;
    assert SaveCalls(cs, name, image, pngInfo, driveSignedIn) == StoreCalls(cs, name, image, pngInfo);
  }

  /** A complete setup where no connector raises: every `store_file` call, then every unload. */
  lemma TraceNotStopped(s: Setup, name: string, image: Image, pngInfo: PngInfo, driveSignedIn: bool)
    requires s.error.None? && FirstRaising(s.connectors, name, driveSignedIn) == |s.connectors|
    ensures CallbackTrace(s, name, image, pngInfo, driveSignedIn)
      == Constructs(s.connectors) + StoreCalls(s.connectors, name, image, pngInfo) + UnloadCalls(s.connectors)
  {
    var cs := s.connectors;
    assert Attempted(cs, name, driveSignedIn) == cs;
    assert SaveCalls(cs, name, image, pngInfo, driveSignedIn)
      == StoreCalls(cs, name, image, pngInfo) + UnloadCalls(cs);
  }

  /**
   * Where `save_image` stops on a complete setup: at the first connector when there
   * are SMB rows (`TypeError`), or SFTP rows and a name without '/' (`IndexError`);
   * after the SFTP connectors when Google Drive has no credentials (`AttributeError`);
   * nowhere otherwise.
   */
  lemma SetupOfStoreOutcome(smb: Parsed, sftp: Parsed, gdrive: Option<(string, string)>, name: string, driveSignedIn: bool)
    requires Shaped(smb, 9) && Shaped(sftp, 5)
    requires SetupOf(smb, sftp, gdrive).error.None?
    ensures var cs := SetupOf(smb, sftp, gdrive).connectors;
      var k := FirstRaising(cs, name, driveSignedIn);
      && (k == |cs| <==> RowsOf(smb) == 0 && (RowsOf(sftp) > 0 ==> '/' in name) && (gdrive.Some? ==> driveSignedIn))
      && (k < |cs| ==> k == if RowsOf(smb) > 0 || '/' !in name then 0 else RowsOf(sftp))
      && (k < |cs| ==> StoreOutcome(cs[k], name, driveSignedIn) == Some(
            if RowsOf(smb) > 0 then TypeError
            else if RowsOf(sftp) > 0 && '/' !in name then IndexError
            else AttributeError))
  {
    var a, b, c := SmbPart(smb), SftpPart(sftp), GDrivePart(gdrive);
    var cs := SetupOf(smb, sftp, gdrive).connectors;
    var k := FirstRaising(cs, name, driveSignedIn);
    assert cs == a + b + c;
    assert |a| == RowsOf(smb) && |b| == RowsOf(sftp);
    if |a| > 0 {
      assert cs[0] == a[0];
      assert k == 0;
    } else if |b| > 0 && '/' !in name {
      assert cs[0] == b[0];
      assert k == 0;
    } else {
      forall j | 0 <= j < |b| ensures StoreOutcome(cs[j], name, driveSignedIn).None? {
        assert cs[j] == b[j];
      }
      if |c| > 0 && !driveSignedIn {
        assert cs[|b|] == c[0];
        assert k == |b|;
      } else {
        forall j | 0 <= j < |cs| ensures StoreOutcome(cs[j], name, driveSignedIn).None? {
          if |b| <= j {
            assert cs[j] == c[j - |b|];
          }
        }
      }
    }
  }

  /** A parser that returns rows returns at least one. */
  lemma ConfigRowsPresent(o: Options)
    ensures SmbConfig(o).Rows? ==> |SmbConfig(o).rows| > 0
    ensures SftpConfig(o).Rows? ==> |SftpConfig(o).rows| > 0
  {
    if SmbConfig(o).Rows? {
      SmbRowCount(o);
    }
    if SftpConfig(o).Rows? {
      SftpRowCount(o);
    }
  }

  /**
   * The callback's outcome when the setup completes: `TypeError` when any SMB
   * connection is configured, else `IndexError` when an SFTP connection is and the
   * image name has no '/', else `AttributeError` when Google Drive is configured
   * without credentials, and success exactly otherwise.
   */
  lemma CallbackOutcome(o: Options, name: string, driveSignedIn: bool)
    requires PlannedSetup(o).error.None?
    ensures CallbackResult(PlannedSetup(o), name, driveSignedIn) ==
      if SmbConfig(o).Rows? then Raised(TypeError)
      else if SftpConfig(o).Rows? && '/' !in name then Raised(IndexError)
      else if GDriveConfig(o).Some? && !driveSignedIn then Raised(AttributeError)
      else Ok(())
  {
    ConfigShaped(o);
    ConfigRowsPresent(o);
    SetupOfStoreOutcome(SmbConfig(o), SftpConfig(o), GDriveConfig(o), name, driveSignedIn);
  }

  /**
   * With any SMB connection configured, a callback whose setup completes raises
   * `TypeError` at the first connector, which is an SMB one: no image reaches any
   * connector and no connector is unloaded.
   */
  lemma SmbConfiguredBlocksEverySave(o: Options, name: string, image: Image, pngInfo: PngInfo, driveSignedIn: bool)
    requires SmbConfig(o).Rows? && PlannedSetup(o).error.None?
    ensures CallbackResult(PlannedSetup(o), name, driveSignedIn) == Raised(TypeError)
    ensures var cs := PlannedSetup(o).connectors;
      && |cs| > 0 && cs[0].OverSmb?
      && CallbackTrace(PlannedSetup(o), name, image, pngInfo, driveSignedIn) == Constructs(cs) + [Store(cs[0], name, image, pngInfo)]
  {
    ConfigShaped(o);
    ConfigRowsPresent(o);
    SetupOfStartsWithSmb(SmbConfig(o), SftpConfig(o), GDriveConfig(o));
    var cs := PlannedSetup(o).connectors;
    assert cs[..|SmbConfig(o).rows|][0] == cs[0];
    assert FirstRaising(cs, name, driveSignedIn) == 0;
    TraceStoppedAtFirst(PlannedSetup(o), name, image, pngInfo, driveSignedIn);
  }

  /**
   * Without SMB rows but with SFTP rows, a callback whose setup completes and whose
   * image name has no '/' raises `IndexError` at the first SFTP connector: no image
   * is stored and no connector is unloaded.
   */
  lemma SftpNameWithoutSlashBlocksEverySave(o: Options, name: string, image: Image, pngInfo: PngInfo, driveSignedIn: bool)
    requires !SmbConfig(o).Rows? && SftpConfig(o).Rows? && '/' !in name && PlannedSetup(o).error.None?
    ensures CallbackResult(PlannedSetup(o), name, driveSignedIn) == Raised(IndexError)
    ensures var cs := PlannedSetup(o).connectors;
      && |cs| > 0 && cs[0].OverSftp?
      && CallbackTrace(PlannedSetup(o), name, image, pngInfo, driveSignedIn) == Constructs(cs) + [Store(cs[0], name, image, pngInfo)]
  {
    ConfigShaped(o);
    ConfigRowsPresent(o);
    SetupOfStoreOutcome(SmbConfig(o), SftpConfig(o), GDriveConfig(o), name, driveSignedIn);
    SetupSftpAt(SmbConfig(o), SftpConfig(o), GDriveConfig(o), 0);
    TraceStoppedAtFirst(PlannedSetup(o), name, image, pngInfo, driveSignedIn);
  }

  /**
   * When only Google Drive fails, because it has no credentials, the image is stored
   * on every SFTP connector, the Drive connector raises `AttributeError` last, and
   * no connector is unloaded.
   */
  lemma DriveWithoutCredentialsFailsLast(o: Options, name: string, image: Image, pngInfo: PngInfo)
    requires !SmbConfig(o).Rows? && (SftpConfig(o).Rows? ==> '/' in name)
    requires GDriveConfig(o).Some? && PlannedSetup(o).error.None?
    ensures CallbackResult(PlannedSetup(o), name, false) == Raised(AttributeError)
    ensures var cs := PlannedSetup(o).connectors;
      && |cs| > 0 && cs[|cs| - 1].OverGDrive?
      && CallbackTrace(PlannedSetup(o), name, image, pngInfo, false) == Constructs(cs) + StoreCalls(cs, name, image, pngInfo)
  {
    ConfigShaped(o);
    var setup := PlannedSetup(o);
    SetupOfStoreOutcome(SmbConfig(o), SftpConfig(o), GDriveConfig(o), name, false);
    var cs, b := setup.connectors, SftpPart(SftpConfig(o));
    assert cs == b + GDrivePart(GDriveConfig(o));
    assert cs[|cs| - 1] == OverGDrive(GDriveConfig(o).value.0, GDriveConfig(o).value.1);
    TraceStoppedAtLast(setup, name, image, pngInfo, false);
  }

  /**
   * Without SMB rows, when the image name has a '/' for SFTP and Google Drive has
   * credentials, a callback whose setup completes stores the image on every
   * connector and unloads every connector, in list order.
   */
  lemma WithoutSmbEveryConnectorStores(o: Options, name: string, image: Image, pngInfo: PngInfo, driveSignedIn: bool)
    requires !SmbConfig(o).Rows? && PlannedSetup(o).error.None?
    requires SftpConfig(o).Rows? ==> '/' in name
    requires GDriveConfig(o).Some? ==> driveSignedIn
    ensures CallbackResult(PlannedSetup(o), name, driveSignedIn) == Ok(())
    ensures var cs := PlannedSetup(o).connectors;
      CallbackTrace(PlannedSetup(o), name, image, pngInfo, driveSignedIn)
        == Constructs(cs) + StoreCalls(cs, name, image, pngInfo) + UnloadCalls(cs)
  {
    ConfigShaped(o);
    ConfigRowsPresent(o);
    var setup := PlannedSetup(o);
    SetupOfStoreOutcome(SmbConfig(o), SftpConfig(o), GDriveConfig(o), name, driveSignedIn);
    TraceNotStopped(setup, name, image, pngInfo, driveSignedIn);
  }

  /**
   * `on_app_started`: construct the Google Drive connector once so that it
   * authenticates, without registering it.
   */
  method OnAppStarted(manager: ConnectorManager, o: Options)
    modifies manager
    ensures manager.connectors == old(manager.connectors)
    ensures manager.trace == old(manager.trace) + Constructs(GDrivePart(GDriveConfig(o)))
  {
    var gdrive := GDriveConfig(o);
    if gdrive.Some? {
      manager.CreateGdriveConnector(gdrive.value.0, gdrive.value.1, true);
    }
  }
}
