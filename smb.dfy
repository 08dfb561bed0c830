/**
 * The SMB connector (SMBConnector.py). The share it talks to is abstract state: the
 * names its root listing returns and the files stored on it. Calls into pysmb are
 * recorded in a trace.
 */
module Smb {
  import opened Runtime
  import opened Text
  import opened Png

  /** Calls the connector makes on its `SMBConnection`. */
  datatype SmbCall =
    | Connect(ip: string, port: string)
    | ListPath(service: string, path: string)
    | CreateDirectory(service: string, path: string)
    | StoreFile(service: string, path: string)
    | Close

  /** `f'{save_dir}/{name.split("/")[-1]}'`: the file lands directly in `saveDir` under its base name. */
  function UploadPath(saveDir: string, name: string): (p: string)
    ensures Split(p, '/') == Split(saveDir, '/') + [LastSegment(name, '/')]
    ensures LastSegment(p, '/') == LastSegment(name, '/')
  {
    var base := LastSegment(name, '/');
    LastSegmentIsSuffix(name, '/');
    SplitConcat(saveDir, base, '/');
    SplitWithoutSeparator(base, '/');
    saveDir + "/" + base
  }

  /**
   * The root listing after bootstrapping with `save_dir`. The listing holds single
   * names, so a `save_dir` with a '/' is created below the root and never shows up
   * in it.
   */
  function WithDirectory(entries: seq<string>, dir: string): seq<string>
  {
    if dir in entries || '/' in dir then entries else entries + [dir]
  }

  /**
   * Bootstrapping keeps what was listed and adds at most the directory itself. The
   * directory is listed afterwards exactly when it was already or is a single name;
   * a nested `save_dir` stays unlisted, so every later bootstrap creates it again.
   */
  lemma WithDirectoryAdds(entries: seq<string>, dir: string)
    ensures dir in WithDirectory(entries, dir) <==> dir in entries || '/' !in dir
    ensures |WithDirectory(entries, dir)| <= |entries| + 1
    ensures WithDirectory(entries, dir)[..|entries|] == entries
    ensures '/' !in dir ==> WithDirectory(WithDirectory(entries, dir), dir) == WithDirectory(entries, dir)
    ensures '/' in dir && dir !in entries ==> WithDirectory(entries, dir) == entries
  {
  }

  class SmbConnector {
    const username: string
    const password: string
    const localName: string
    const serverName: string
    const serviceName: string
    const domain: string
    const ip: string
    const port: string
    const saveDir: string

    /** Whether the session is open. */
    var connected: bool
    /** The file names `listPath(service_name, '/')` returns, in listing order. */
    var rootEntries: seq<string>
    /** The files on the share, by path within it. */
    var files: map<string, PngFile>
    /** Every call made on the session so far. */
    var calls: seq<SmbCall>

    /** `__init__`: open the session, then make sure `save_dir` exists. */
    constructor(username: string, password: string, localName: string, serverName: string,
                serviceName: string, domain: string, ip: string, port: string, saveDir: string,
                shareRoot: seq<string>, shareFiles: map<string, PngFile>)
      ensures this.username == username && this.password == password && this.localName == localName
      ensures this.serverName == serverName && this.serviceName == serviceName && this.domain == domain
      ensures this.ip == ip && this.port == port && this.saveDir == saveDir
      ensures connected && files == shareFiles
      ensures rootEntries == WithDirectory(shareRoot, saveDir)
      ensures calls == [Connect(ip, port), ListPath(serviceName, "/")] +
                       (if saveDir in shareRoot then [] else [CreateDirectory(serviceName, saveDir)])
    {
      this.username, this.password, this.localName := username, password, localName;
      this.serverName, this.serviceName, this.domain := serverName, serviceName, domain;
      this.ip, this.port, this.saveDir := ip, port, saveDir;
      rootEntries, files := shareRoot, shareFiles;
      connected, calls := true, [Connect(ip, port)];
      new;
      DirExistOrCreateDir();
    }

    /**
     * `dir_exist_or_create_dir`: scan the root listing and stop at an entry named
     * `save_dir`; only when none matches, create it (once, and no sub-directories).
     * The listing gains the new directory only when it is a single name.
     */
    method DirExistOrCreateDir()
      modifies this
      ensures rootEntries == WithDirectory(old(rootEntries), saveDir)
      ensures calls == old(calls) + [ListPath(serviceName, "/")] +
                       (if saveDir in old(rootEntries) then [] else [CreateDirectory(serviceName, saveDir)])
      ensures connected == old(connected) && files == old(files)
    {
      var listing := rootEntries;
      calls := calls + [ListPath(serviceName, "/")];
      var i := 0;
      while i < |listing|
        invariant 0 <= i <= |listing|
        invariant forall j :: 0 <= j < i ==> listing[j] != saveDir
      {
        if listing[i] == saveDir {
          return;
        }
        i := i + 1;
      }
      calls := calls + [CreateDirectory(serviceName, saveDir)];
      if '/' !in saveDir {
        rootEntries := rootEntries + [saveDir];
      }
    }

    /** `store_file(name, image)`: encode without metadata and store under `save_dir`. */
    method StoreFile(name: string, image: Image)
      modifies this
      ensures files == old(files)[UploadPath(saveDir, name) := PngFile(image, [])]
      ensures calls == old(calls) + [SmbCall.StoreFile(serviceName, UploadPath(saveDir, name))]
      ensures connected == old(connected) && rootEntries == old(rootEntries)
    {
      var bytes := PngFile(image, []);
      var baseName := LastSegment(name, '/');
      var path := saveDir + "/" + baseName;
      calls := calls + [SmbCall.StoreFile(serviceName, path)];
      files := files[path := bytes];
    }

    /** `before_unload`: close the session. */
    method BeforeUnload()
      modifies this
      ensures !connected && calls == old(calls) + [Close]
      ensures rootEntries == old(rootEntries) && files == old(files)
    {
      connected := false;
      calls := calls + [Close];
    }
  }
}
