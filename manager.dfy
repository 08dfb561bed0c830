/**
 * The connector registry (ConnectorManager.py). Python's list of connector objects is
 * modelled as the list of the arguments each connector was constructed with, plus a
 * trace of every call the manager makes on a connector; what each call does on the
 * remote side is modelled by the Smb, Sftp and GDrive modules.
 */
module Manager {
  import opened Runtime
  import opened Png
  import Sftp

  /** The arguments of `SMBConector(...)`, in its parameter order. */
  datatype SmbParams = SmbParams(username: string, password: string, localName: string, serverName: string,
                                 serviceName: string, domain: string, ip: string, port: string, saveDir: string)

  /** The arguments of `SFTPConnector(...)`, in its parameter order. */
  datatype SftpParams = SftpParams(host: string, username: string, password: string, remotePath: string, port: string)

  /** A constructed connector, identified by its kind and constructor arguments. */
  datatype ConnectorId =
    | OverSmb(smb: SmbParams)
    | OverSftp(sftp: SftpParams)
    | OverGDrive(clientSecret: string, saveDir: string)

  /** A call the manager makes on a connector. */
  datatype Call =
    | Construct(c: ConnectorId)
    | Store(c: ConnectorId, name: string, image: Image, pngInfo: PngInfo)
    | Unload(c: ConnectorId)

  /**
   * What `store_file(name, image, png_info)` raises on a connector, if anything.
   * `SMBConector.store_file` takes only `(name, image)`, so the call raises `TypeError`;
   * the SFTP connector raises what deriving its upload target raises; the Google Drive
   * connector dereferences `gauth.credentials`, which is `None` when its authentication
   * left no credentials (`driveSignedIn` false), and raises `AttributeError`.
   */
  function StoreOutcome(c: ConnectorId, name: string, driveSignedIn: bool): (e: Option<Error>)
    ensures c.OverSmb? ==> e == Some(TypeError)
    ensures c.OverSftp? ==> (e.Some? <==> '/' !in name) && (e.Some? ==> e.value == IndexError)
    ensures c.OverGDrive? ==> (e.Some? <==> !driveSignedIn) && (e.Some? ==> e.value == AttributeError)
  {
    match c
    case OverSmb(_) => Some(TypeError)
    case OverSftp(_) =>
      var target := Sftp.UploadTarget(name);
      if target.Raised? then Some(target.error) else None
    case OverGDrive(_, _) => if driveSignedIn then None else Some(AttributeError)
  }

  /** Where `save_image`'s loop stops: the first connector whose `store_file` raises, or the end of the list. */
  function FirstRaising(cs: seq<ConnectorId>, name: string, driveSignedIn: bool): (k: nat)
    ensures k <= |cs|
    ensures k < |cs| ==> StoreOutcome(cs[k], name, driveSignedIn).Some?
    ensures forall j :: 0 <= j < k ==> StoreOutcome(cs[j], name, driveSignedIn).None?
  {
    if |cs| == 0 then 0
    else if StoreOutcome(cs[0], name, driveSignedIn).Some? then 0
    else 1 + FirstRaising(cs[1..], name, driveSignedIn)
  }

  /** The `store_file` calls made on `cs`, in order, all with the same arguments. */
  function StoreCalls(cs: seq<ConnectorId>, name: string, image: Image, pngInfo: PngInfo): (calls: seq<Call>)
    ensures |calls| == |cs|
    ensures forall i :: 0 <= i < |cs| ==> calls[i] == Store(cs[i], name, image, pngInfo)
  {
    seq(|cs|, i requires 0 <= i < |cs| => Store(cs[i], name, image, pngInfo))
  }

  /** The `before_unload` calls made on `cs`, in order. */
  function UnloadCalls(cs: seq<ConnectorId>): (calls: seq<Call>)
    ensures |calls| == |cs|
    ensures forall i :: 0 <= i < |cs| ==> calls[i] == Unload(cs[i])
  {
    seq(|cs|, i requires 0 <= i < |cs| => Unload(cs[i]))
  }

  /**
   * The connectors `save_image` calls `store_file` on: a prefix of the list in which
   * every call but the last returns, ending either with the whole list or with the
   * connector that raises.
   */
  function Attempted(cs: seq<ConnectorId>, name: string, driveSignedIn: bool): (s: seq<ConnectorId>)
    ensures |s| <= |cs| && s == cs[..|s|]
    ensures forall j :: 0 <= j < |s| - 1 ==> StoreOutcome(s[j], name, driveSignedIn).None?
    ensures s == cs || (|s| > 0 && StoreOutcome(s[|s| - 1], name, driveSignedIn).Some?)
    ensures s == cs <==> forall j :: 0 <= j < |cs| - 1 ==> StoreOutcome(cs[j], name, driveSignedIn).None?
  {
    var k := FirstRaising(cs, name, driveSignedIn);
    if k < |cs| then cs[..k + 1] else cs
  }

  class ConnectorManager {
    /** The registered connectors, in registration order. */
    var connectors: seq<ConnectorId>
    /** Every call made on a connector so far, construction included. */
    var trace: seq<Call>

    /** `__init__`: an empty list. */
    constructor()
      ensures connectors == [] && trace == []
    {
      connectors := [];
      trace := [];
    }

    /** `__reset__`: forget the connectors without calling `before_unload` on them. */
    method Reset()
      modifies this
      ensures connectors == [] && trace == old(trace)
    {
      connectors := [];
    }

    /** `create_smb_connector`: construct an SMB connector and append it. */
    method CreateSmbConnector(username: string, password: string, localName: string, serverName: string,
                              serviceName: string, domain: string, ip: string, port: string, saveDir: string)
      modifies this
      ensures var c := OverSmb(SmbParams(username, password, localName, serverName, serviceName, domain, ip, port, saveDir));
        connectors == old(connectors) + [c] && trace == old(trace) + [Construct(c)]
    {
      var c := OverSmb(SmbParams(username, password, localName, serverName, serviceName, domain, ip, port, saveDir));
      trace := trace + [Construct(c)];
      connectors := connectors + [c];
    }

    /** `create_sftp_connector`: construct an SFTP connector and append it. */
    method CreateSftpConnector(host: string, username: string, password: string, remotePath: string, port: string)
      modifies this
      ensures var c := OverSftp(SftpParams(host, username, password, remotePath, port));
        connectors == old(connectors) + [c] && trace == old(trace) + [Construct(c)]
    {
      var c := OverSftp(SftpParams(host, username, password, remotePath, port));
      trace := trace + [Construct(c)];
      connectors := connectors + [c];
    }

    /**
     * `create_gdrive_connector`: construct a Google Drive connector, which runs its
     * authentication; append it unless `authen_only`.
     */
    method CreateGdriveConnector(clientSecret: string, saveDir: string, authenOnly: bool)
      modifies this
      ensures trace == old(trace) + [Construct(OverGDrive(clientSecret, saveDir))]
      ensures connectors == if authenOnly then old(connectors) else old(connectors) + [OverGDrive(clientSecret, saveDir)]
    {
      var c := OverGDrive(clientSecret, saveDir);
      trace := trace + [Construct(c)];
      if authenOnly {
        return;
      }
      connectors := connectors + [c];
    }

    /**
     * `create_dropbox_connector` always fails. It is declared without `self`
     * (ConnectorManager.py:100), so a call on the manager passes one argument too many
     * and raises `TypeError`; a call on the class would raise `NotImplementedError`.
     */
    method CreateDropboxConnector() returns (r: Result<()>)
      ensures r == Raised(TypeError)
    {
      r := Raised(TypeError);
    }

    /**
     * `save_image`: call `store_file(name, image, png_info)` on each connector in
     * order. Nothing isolates a failure: the first connector that raises ends the
     * loop, and the connectors after it are never called.
     */
    method SaveImage(image: Image, name: string, pngInfo: PngInfo, driveSignedIn: bool) returns (r: Result<()>)
      modifies this
      ensures connectors == old(connectors)
      ensures trace == old(trace) + StoreCalls(Attempted(connectors, name, driveSignedIn), name, image, pngInfo)
      ensures var k := FirstRaising(connectors, name, driveSignedIn);
        && (r.Raised? <==> k < |connectors|)
        && (r.Raised? ==> r == Raised(StoreOutcome(connectors[k], name, driveSignedIn).value))
    {
      var i := 0;
      while i < |connectors|
        invariant 0 <= i <= |connectors| && connectors == old(connectors)
        invariant forall j :: 0 <= j < i ==> StoreOutcome(connectors[j], name, driveSignedIn).None?
        invariant trace == old(trace) + StoreCalls(connectors[..i], name, image, pngInfo)
      {
        var c := connectors[i];
        trace := trace + [Store(c, name, image, pngInfo)];
        assert connectors[..i + 1] == connectors[..i] + [c];
        var outcome := StoreOutcome(c, name, driveSignedIn);
        if outcome.Some? {
          assert FirstRaising(connectors, name, driveSignedIn) == i;
          return Raised(outcome.value);
        }
        i := i + 1;
      }
      assert connectors[..i] == connectors;
      return Ok(());
    }

    /** `_ui_get_smb_connector`: construct an SMB connector for the browser; the list is untouched. */
    method UiGetSmbConnector(username: string, password: string, localName: string, serverName: string,
                             serviceName: string, domain: string, ip: string, port: string, saveDir: string)
      returns (c: ConnectorId)
      modifies this
      ensures c == OverSmb(SmbParams(username, password, localName, serverName, serviceName, domain, ip, port, saveDir))
      ensures connectors == old(connectors) && trace == old(trace) + [Construct(c)]
    {
      c := OverSmb(SmbParams(username, password, localName, serverName, serviceName, domain, ip, port, saveDir));
      trace := trace + [Construct(c)];
    }

    /** `_ui_get_sftp_connector`: construct an SFTP connector for the browser; the list is untouched. */
    method UiGetSftpConnector(host: string, username: string, password: string, remotePath: string, port: string)
      returns (c: ConnectorId)
      modifies this
      ensures c == OverSftp(SftpParams(host, username, password, remotePath, port))
      ensures connectors == old(connectors) && trace == old(trace) + [Construct(c)]
    {
      c := OverSftp(SftpParams(host, username, password, remotePath, port));
      trace := trace + [Construct(c)];
    }

    /** `before_unload`: call `before_unload` on each connector in order. */
    method BeforeUnload()
      modifies this
      ensures connectors == old(connectors)
      ensures trace == old(trace) + UnloadCalls(connectors)
    {
      var i := 0;
      while i < |connectors|
        invariant 0 <= i <= |connectors| && connectors == old(connectors)
        invariant trace == old(trace) + UnloadCalls(connectors[..i])
      {
        assert connectors[..i + 1] == connectors[..i] + [connectors[i]];
        trace := trace + [Unload(connectors[i])];
        i := i + 1;
      }
      assert connectors[..i] == connectors;
    }
  }
}
