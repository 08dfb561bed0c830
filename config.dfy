/**
 * Parsing of the extension's settings (ConfigObject.py). Each setting is a
 * comma-separated list, one entry per connection; credential-like settings pair two
 * values with ':'. The settings are passed in as plain strings.
 */
module Config {
  import opened Runtime
  import opened Text

  /** The option strings the parser reads. */
  datatype Options = Options(
    smbPath: string,
    smbDomain: string,
    smbUserPasswd: string,
    smbIpPort: string,
    smbServerNameServiceName: string,
    gdriveClientSecret: string,
    gdriveSaveDir: string,
    sftpUserPasswd: string,
    sftpIpPort: string,
    sftpRemotePath: string)

  /** `None`, the list of per-connection rows, or an exception escaping the parser. */
  datatype Parsed = Absent | Rows(rows: seq<seq<string>>) | Raises(error: Error)

  /** `[x.split(':') for x in s.split(',')]`. */
  function ColonSplitEntries(s: string): (r: seq<seq<string>>)
    ensures |r| == |Split(s, ',')|
    ensures forall i :: 0 <= i < |r| ==> r[i] == Split(Split(s, ',')[i], ':')
  {
    var entries := Split(s, ',');
    seq(|entries|, i requires 0 <= i < |entries| => Split(entries[i], ':'))
  }

  /** The split settings one parser builds its rows from. */
  datatype RowSource =
    | SmbSource(paths: seq<string>, domains: seq<string>, userPasswd: seq<seq<string>>,
                ipPort: seq<seq<string>>, serverService: seq<seq<string>>)
    | SftpSource(userPasswd: seq<seq<string>>, ipPort: seq<seq<string>>, remotePaths: seq<string>)

  /** How many rows the parser's loop runs over. */
  function RowCount(src: RowSource): nat
  {
    match src
    case SmbSource(paths, _, _, _, _) => |paths|
    case SftpSource(userPasswd, _, _) => |userPasswd|
  }

  /** The lists the loop indexes without a check have passed their length test. */
  predicate Aligned(src: RowSource)
  {
    match src
    case SmbSource(paths, _, userPasswd, ipPort, serverService) =>
      |userPasswd| == |paths| && |ipPort| == |paths| && |serverService| == |paths|
    case SftpSource(userPasswd, ipPort, _) => |ipPort| == |userPasswd|
  }

  /**
   * Row `i` of the loop. Field 1 of a ':'-split entry exists only when the entry
   * holds a ':'; the domain list and the SFTP remote-path list are indexed unchecked.
   * This is the specification of one iteration: the loops of `BuildSmbRows` and
   * `BuildSftpRows` compute the same row step by step, and `SmbConfig`/`SftpConfig`
   * are the specifications that `GetSmbConfig`/`GetSftpConfig` are proved against.
   */
  function RowAt(src: RowSource, i: nat): Result<seq<string>>
    requires Aligned(src) && i < RowCount(src)
  {
    match src
    case SmbSource(paths, domains, userPasswd, ipPort, serverService) =>
      if |userPasswd[i]| < 2 || |serverService[i]| < 2 || i >= |domains| || |ipPort[i]| < 2
      then Raised(IndexError)
      else Ok([userPasswd[i][0], userPasswd[i][1], "local", serverService[i][0], serverService[i][1],
               domains[i], ipPort[i][0], ipPort[i][1], paths[i]])
    case SftpSource(userPasswd, ipPort, remotePaths) =>
      if |userPasswd[i]| < 2 || |ipPort[i]| < 2 || i >= |remotePaths|
      then Raised(IndexError)
      else Ok([ipPort[i][0], userPasswd[i][0], userPasswd[i][1], remotePaths[i], ipPort[i][1]])
  }

  /** The rows the loop has appended after `n` rounds, or the exception of the first bad row. */
  function RowsUpTo(src: RowSource, n: nat): Result<seq<seq<string>>>
    requires Aligned(src) && n <= RowCount(src)
  {
    if n == 0 then Ok([])
    else
      match RowsUpTo(src, n - 1)
      case Raised(e) => Raised(e)
      case Ok(rows) =>
        match RowAt(src, n - 1)
        case Raised(e) => Raised(e)
        case Ok(row) => Ok(rows + [row])
  }

  /** The rows succeed exactly when every row does, and then row `i` is `RowAt(src, i)`. */
  lemma {:induction false} RowsUpToRows(src: RowSource, n: nat)
    requires Aligned(src) && n <= RowCount(src)
    ensures RowsUpTo(src, n).Ok? <==> forall i :: 0 <= i < n ==> RowAt(src, i).Ok?
    ensures RowsUpTo(src, n).Ok? ==>
      |RowsUpTo(src, n).value| == n &&
      forall i :: 0 <= i < n ==> RowsUpTo(src, n).value[i] == RowAt(src, i).value
    ensures RowsUpTo(src, n).Raised? ==> RowsUpTo(src, n).error == IndexError
  {
    if n > 0 {
      RowsUpToRows(src, n - 1);
    }
  }

  /** Once a row has raised, the loop never produces rows. */
  lemma {:induction false} RowsUpToStaysRaised(src: RowSource, k: nat, n: nat)
    requires Aligned(src) && k <= n <= RowCount(src)
    requires RowsUpTo(src, k).Raised?
    ensures RowsUpTo(src, n) == RowsUpTo(src, k)
    decreases n - k
  {
    if k < n {
      RowsUpToStaysRaised(src, k + 1, n);
    }
  }

  function SmbSourceOf(o: Options): RowSource
  {
    SmbSource(Split(o.smbPath, ','), Split(o.smbDomain, ','), ColonSplitEntries(o.smbUserPasswd),
              ColonSplitEntries(o.smbIpPort), ColonSplitEntries(o.smbServerNameServiceName))
  }

  function SftpSourceOf(o: Options): RowSource
  {
    SftpSource(ColonSplitEntries(o.sftpUserPasswd), ColonSplitEntries(o.sftpIpPort), Split(o.sftpRemotePath, ','))
  }

  function ParsedOf(r: Result<seq<seq<string>>>): Parsed
  {
    match r
    case Ok(rows) => Rows(rows)
    case Raised(e) => Raises(e)
  }

  /** What `get_smb_config` returns or raises. */
  function SmbConfig(o: Options): Parsed
  {
    if o.smbPath == "" || o.smbUserPasswd == "" || o.smbIpPort == "" || o.smbServerNameServiceName == "" then Absent
    else
      var src := SmbSourceOf(o);
      if !Aligned(src) then Absent
      else ParsedOf(RowsUpTo(src, RowCount(src)))
  }

  /** What `get_sftp_config` returns or raises. */
  function SftpConfig(o: Options): Parsed
  {
    if o.sftpUserPasswd == "" || o.sftpIpPort == "" then Absent
    else
      var src := SftpSourceOf(o);
      if |src.ipPort| == 0 || |src.userPasswd| == 0 then Absent
      else if !Aligned(src) then Absent
      else ParsedOf(RowsUpTo(src, RowCount(src)))
  }

  /** Once row `i` raises, so does the whole loop. */
  lemma RowsUpToFails(src: RowSource, i: nat)
    requires Aligned(src) && i < RowCount(src)
    requires RowsUpTo(src, i).Ok? && RowAt(src, i).Raised?
    ensures RowsUpTo(src, RowCount(src)) == Raised(RowAt(src, i).error)
  {
    RowsUpToStaysRaised(src, i + 1, RowCount(src));
  }

  /** The row-building loop of `get_smb_config`, over the split settings. */
  method BuildSmbRows(paths: seq<string>, domains: seq<string>, userPasswd: seq<seq<string>>,
                      ipPort: seq<seq<string>>, serverService: seq<seq<string>>) returns (r: Parsed)
    requires |userPasswd| == |paths| && |ipPort| == |paths| && |serverService| == |paths|
    ensures r == ParsedOf(RowsUpTo(SmbSource(paths, domains, userPasswd, ipPort, serverService), |paths|))
  {
    ghost var src := SmbSource(paths, domains, userPasswd, ipPort, serverService);
    var rows: seq<seq<string>> := [];
    var i := 0;
    while i < |paths|
      invariant 0 <= i <= |paths|
      invariant RowsUpTo(src, i) == Ok(rows)
    {
      if |userPasswd[i]| < 2 || |serverService[i]| < 2 || i >= |domains| || |ipPort[i]| < 2 {
        RowsUpToFails(src, i);
        return Raises(IndexError);
      }
      var user, passwd := userPasswd[i][0], userPasswd[i][1];
      var serverName, serviceName := serverService[i][0], serverService[i][1];
      var ip, port := ipPort[i][0], ipPort[i][1];
      var row := [user, passwd, "local", serverName, serviceName, domains[i], ip, port, paths[i]];
      assert RowAt(src, i) == Ok(row);
      rows := rows + [row];
      i := i + 1;
    }
    return Rows(rows);
  }

  /** `get_smb_config`: the emptiness and length checks, then the row-building loop. */
  method GetSmbConfig(o: Options) returns (r: Parsed)
    ensures r == SmbConfig(o)
  {
    if o.smbPath == "" || o.smbUserPasswd == "" || o.smbIpPort == "" || o.smbServerNameServiceName == "" {
      return Absent;
    }
    var paths := Split(o.smbPath, ',');
    var domains := Split(o.smbDomain, ',');
    var userPasswd := ColonSplitEntries(o.smbUserPasswd);
    var ipPort := ColonSplitEntries(o.smbIpPort);
    var serverService := ColonSplitEntries(o.smbServerNameServiceName);
    if |paths| != |userPasswd| || |paths| != |ipPort| || |paths| != |serverService| {
      return Absent;
    }
    r := BuildSmbRows(paths, domains, userPasswd, ipPort, serverService);
  }

  /** The row-building loop of `get_sftp_config`, over the split settings. */
  method BuildSftpRows(userPasswd: seq<seq<string>>, ipPort: seq<seq<string>>, remotePaths: seq<string>)
    returns (r: Parsed)
    requires |ipPort| == |userPasswd|
    ensures r == ParsedOf(RowsUpTo(SftpSource(userPasswd, ipPort, remotePaths), |userPasswd|))
  {
    ghost var src := SftpSource(userPasswd, ipPort, remotePaths);
    var rows: seq<seq<string>> := [];
    var i := 0;
    while i < |userPasswd|
      invariant 0 <= i <= |userPasswd|
      invariant RowsUpTo(src, i) == Ok(rows)
    {
      if |userPasswd[i]| < 2 || |ipPort[i]| < 2 || i >= |remotePaths| {
        RowsUpToFails(src, i);
        return Raises(IndexError);
      }
      var user, passwd := userPasswd[i][0], userPasswd[i][1];
      var ip, port := ipPort[i][0], ipPort[i][1];
      var row := [ip, user, passwd, remotePaths[i], port];
      assert RowAt(src, i) == Ok(row);
      rows := rows + [row];
      i := i + 1;
    }
    return Rows(rows);
  }

  /** `get_sftp_config`: the emptiness and length checks, then the row-building loop. */
  method GetSftpConfig(o: Options) returns (r: Parsed)
    ensures r == SftpConfig(o)
  {
    if o.sftpUserPasswd == "" || o.sftpIpPort == "" {
      return Absent;
    }
    var userPasswd := ColonSplitEntries(o.sftpUserPasswd);
    var ipPort := ColonSplitEntries(o.sftpIpPort);
    var remotePaths := Split(o.sftpRemotePath, ',');
    if |ipPort| == 0 || |userPasswd| == 0 {
      return Absent;
    }
    if |ipPort| != |userPasswd| {
      return Absent;
    }
    r := BuildSftpRows(userPasswd, ipPort, remotePaths);
  }

  /** `get_gdrive_config`: the pair (client secret, save directory) unless either is empty. */
  function GDriveConfig(o: Options): (r: Option<(string, string)>)
    ensures r.None? <==> o.gdriveClientSecret == "" || o.gdriveSaveDir == ""
    ensures r.Some? ==> r.value == (o.gdriveClientSecret, o.gdriveSaveDir)
  {
    if o.gdriveClientSecret == "" || o.gdriveSaveDir == "" then None
    else Some((o.gdriveClientSecret, o.gdriveSaveDir))
  }
}

/** What the parsers promise, stated on the option strings alone. */
module ConfigProperties {
  import opened Runtime
  import opened Text
  import opened Config

  /**
   * `get_smb_config` returns `None` exactly when a required setting is empty or the
   * path count differs from one of the three paired lists; the domain is never tested.
   */
  lemma SmbConfigAbsent(o: Options)
    ensures SmbConfig(o).Absent? <==>
      || o.smbPath == "" || o.smbUserPasswd == "" || o.smbIpPort == "" || o.smbServerNameServiceName == ""
      || |Split(o.smbPath, ',')| != |Split(o.smbUserPasswd, ',')|
      || |Split(o.smbPath, ',')| != |Split(o.smbIpPort, ',')|
      || |Split(o.smbPath, ',')| != |Split(o.smbServerNameServiceName, ',')|
  {
  }

  /**
   * Past the checks, the parser raises exactly when some connection's user:passwd,
   * server:service or ip:port entry has no ':', or the domain list is too short.
   */
  lemma SmbConfigRaises(o: Options)
    requires !SmbConfig(o).Absent?
    ensures var paths, domains := Split(o.smbPath, ','), Split(o.smbDomain, ',');
      var up, ip, ss := Split(o.smbUserPasswd, ','), Split(o.smbIpPort, ','), Split(o.smbServerNameServiceName, ',');
      && |up| == |paths| && |ip| == |paths| && |ss| == |paths|
      && (SmbConfig(o).Raises? <==>
            exists i :: 0 <= i < |paths| && (':' !in up[i] || ':' !in ss[i] || i >= |domains| || ':' !in ip[i]))
      && (SmbConfig(o).Raises? ==> SmbConfig(o).error == IndexError)
  {
    var src := SmbSourceOf(o);
    var n := RowCount(src);
    assert SmbConfig(o) == ParsedOf(RowsUpTo(src, n));
    RowsUpToRows(src, n);
    forall i | 0 <= i < n
      ensures RowAt(src, i).Raised? <==>
        ':' !in Split(o.smbUserPasswd, ',')[i] || ':' !in Split(o.smbServerNameServiceName, ',')[i] ||
        i >= |Split(o.smbDomain, ',')| || ':' !in Split(o.smbIpPort, ',')[i]
    {
      SplitSeveralParts(Split(o.smbUserPasswd, ',')[i], ':');
      SplitSeveralParts(Split(o.smbServerNameServiceName, ',')[i], ':');
      SplitSeveralParts(Split(o.smbIpPort, ',')[i], ':');
    }
  }

  /**
   * When the SMB parser returns rows, there is one per path entry, in order, shaped
   * `[user, passwd, "local", server_name, service_name, domain, ip, port, path]`, each
   * taken as field 0 or 1 of the entry's ':'-split (later parts are dropped).
   */
  lemma SmbConfigRowFields(o: Options)
    requires SmbConfig(o).Rows?
    ensures var paths, domains := Split(o.smbPath, ','), Split(o.smbDomain, ',');
      var up, ip, ss := Split(o.smbUserPasswd, ','), Split(o.smbIpPort, ','), Split(o.smbServerNameServiceName, ',');
      var rows := SmbConfig(o).rows;
      && |rows| == |paths| && |up| == |paths| && |ip| == |paths| && |ss| == |paths|
      && forall i :: 0 <= i < |rows| ==>
           && |Split(up[i], ':')| >= 2 && |Split(ss[i], ':')| >= 2 && |Split(ip[i], ':')| >= 2 && i < |domains|
           && rows[i] == [Split(up[i], ':')[0], Split(up[i], ':')[1], "local",
                          Split(ss[i], ':')[0], Split(ss[i], ':')[1], domains[i],
                          Split(ip[i], ':')[0], Split(ip[i], ':')[1], paths[i]]
  {
    var src := SmbSourceOf(o);
    var n := RowCount(src);
    assert SmbConfig(o) == ParsedOf(RowsUpTo(src, n));
    RowsUpToRows(src, n);
    var up, ip, ss := ColonSplitEntries(o.smbUserPasswd), ColonSplitEntries(o.smbIpPort), ColonSplitEntries(o.smbServerNameServiceName);
    forall i | 0 <= i < n
      ensures up[i] == Split(Split(o.smbUserPasswd, ',')[i], ':')
      ensures ip[i] == Split(Split(o.smbIpPort, ',')[i], ':')
      ensures ss[i] == Split(Split(o.smbServerNameServiceName, ',')[i], ':')
      ensures RowAt(src, i).Ok?
    {
    }
  }

  /**
   * `get_sftp_config` returns `None` exactly when user:passwd or ip:port is empty or
   * their entry counts differ: the test for an empty list never fires, because a
   * split always has a part.
   */
  lemma SftpConfigAbsent(o: Options)
    ensures SftpConfig(o).Absent? <==>
      || o.sftpUserPasswd == "" || o.sftpIpPort == ""
      || |Split(o.sftpUserPasswd, ',')| != |Split(o.sftpIpPort, ',')|
  {
  }

  /**
   * Past the checks, the SFTP parser raises exactly when an entry lacks ':' or the
   * remote-path list is shorter than the credentials list.
   */
  lemma SftpConfigRaises(o: Options)
    requires !SftpConfig(o).Absent?
    ensures var up, ip, paths := Split(o.sftpUserPasswd, ','), Split(o.sftpIpPort, ','), Split(o.sftpRemotePath, ',');
      && |ip| == |up|
      && (SftpConfig(o).Raises? <==>
            exists i :: 0 <= i < |up| && (':' !in up[i] || ':' !in ip[i] || i >= |paths|))
      && (SftpConfig(o).Raises? ==> SftpConfig(o).error == IndexError)
  {
    var src := SftpSourceOf(o);
    var n := RowCount(src);
    assert SftpConfig(o) == ParsedOf(RowsUpTo(src, n));
    RowsUpToRows(src, n);
    forall i | 0 <= i < n
      ensures RowAt(src, i).Raised? <==>
        ':' !in Split(o.sftpUserPasswd, ',')[i] || ':' !in Split(o.sftpIpPort, ',')[i] ||
        i >= |Split(o.sftpRemotePath, ',')|
    {
      SplitSeveralParts(Split(o.sftpUserPasswd, ',')[i], ':');
      SplitSeveralParts(Split(o.sftpIpPort, ',')[i], ':');
    }
  }

  /** When the SFTP parser returns rows, row `i` is `[ip, user, passwd, remote_path[i], port]`. */
  lemma SftpConfigRowFields(o: Options)
    requires SftpConfig(o).Rows?
    ensures var up, ip, paths := Split(o.sftpUserPasswd, ','), Split(o.sftpIpPort, ','), Split(o.sftpRemotePath, ',');
      var rows := SftpConfig(o).rows;
      && |rows| == |up| && |ip| == |up|
      && forall i :: 0 <= i < |rows| ==>
           && |Split(up[i], ':')| >= 2 && |Split(ip[i], ':')| >= 2 && i < |paths|
           && rows[i] == [Split(ip[i], ':')[0], Split(up[i], ':')[0], Split(up[i], ':')[1],
                          paths[i], Split(ip[i], ':')[1]]
  {
    var src := SftpSourceOf(o);
    var n := RowCount(src);
    assert SftpConfig(o) == ParsedOf(RowsUpTo(src, n));
    RowsUpToRows(src, n);
    var up, ip := ColonSplitEntries(o.sftpUserPasswd), ColonSplitEntries(o.sftpIpPort);
    forall i | 0 <= i < n
      ensures up[i] == Split(Split(o.sftpUserPasswd, ',')[i], ':')
      ensures ip[i] == Split(Split(o.sftpIpPort, ',')[i], ':')
      ensures RowAt(src, i).Ok?
    {
    }
  }

  /** Every SMB row has the nine fields the SMB connector's constructor takes. */
  lemma SmbRowsHaveNineFields(o: Options)
    requires SmbConfig(o).Rows?
    ensures forall i :: 0 <= i < |SmbConfig(o).rows| ==> |SmbConfig(o).rows[i]| == 9 && SmbConfig(o).rows[i][2] == "local"
  {
    var src := SmbSourceOf(o);
    RowsUpToRows(src, RowCount(src));
  }

  /** Every SFTP row has the five fields the SFTP connector's constructor takes. */
  lemma SftpRowsHaveFiveFields(o: Options)
    requires SftpConfig(o).Rows?
    ensures forall i :: 0 <= i < |SftpConfig(o).rows| ==> |SftpConfig(o).rows[i]| == 5
  {
    var src := SftpSourceOf(o);
    RowsUpToRows(src, RowCount(src));
  }
}
