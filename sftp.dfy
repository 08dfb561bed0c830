/**
 * The SFTP connector (SFTPConnector.py). The remote host is abstract state: the set of
 * directory paths that exist on it, the SFTP session's working directory, and the files
 * uploaded. Calls into paramiko are recorded in a trace.
 */
module Sftp {
  import opened Runtime
  import opened Text
  import opened Png

  /** Calls the connector makes on its `SSHClient` and `SFTPClient`. */
  datatype SftpCall =
    | AutoAddHostKeys
    | Connect(host: string, port: string, username: string, password: string)
    | OpenSftp
    | Chdir(path: string)
    | Mkdir(path: string)
    | PutFo(path: string)
    | CloseSftp
    | CloseSsh

  /** A file uploaded to `relative`, a path taken relative to the working directory `workDir`. */
  datatype Location = Location(workDir: string, relative: string)

  /** The five directories created under a new remote root, in creation order. */
  const SubDirectories: seq<string> := ["txt2img-images", "txt2img-grids", "img2img-images", "img2img-grids", "extras-images"]

  /** The directories bootstrap creates, in `mkdir` order: the root, then its five sub-directories. */
  function LayoutPaths(root: string): (paths: seq<string>)
    ensures |paths| == 6 && paths[0] == root
    ensures forall k :: 0 <= k < 5 ==> paths[k + 1] == root + "/" + SubDirectories[k]
  {
    [root, root + "/" + SubDirectories[0], root + "/" + SubDirectories[1], root + "/" + SubDirectories[2],
     root + "/" + SubDirectories[3], root + "/" + SubDirectories[4]]
  }

  /** The host's directories after bootstrap: unchanged if the root exists, else the root and its layout added. */
  function Bootstrapped(dirs: set<string>, root: string): set<string>
  {
    if root in dirs then dirs
    else
      var p := LayoutPaths(root);
      dirs + {p[0]} + {p[1]} + {p[2]} + {p[3]} + {p[4]} + {p[5]}
  }

  /** The calls bootstrap makes, given whether `chdir(remote_path)` succeeds. */
  function BootstrapCalls(root: string, rootExists: bool): seq<SftpCall>
  {
    if rootExists then [Chdir(root)]
    else
      var p := LayoutPaths(root);
      [Chdir(root)] + [Mkdir(p[0])] + [Mkdir(p[1])] + [Mkdir(p[2])] + [Mkdir(p[3])] + [Mkdir(p[4])] + [Mkdir(p[5])] + [Chdir(root)]
  }

  /** The six paths bootstrap creates are pairwise different, so six directories are added. */
  lemma {:induction false} LayoutPathsDistinct(root: string)
    ensures forall i, j :: 0 <= i < j < 6 ==> LayoutPaths(root)[i] != LayoutPaths(root)[j]
  {
    var paths := LayoutPaths(root);
    forall i, j | 0 <= i < j < 6 ensures paths[i] != paths[j] {
      if i == 0 {
        assert |paths[i]| < |paths[j]|;
      } else {
        var a, b := SubDirectories[i - 1], SubDirectories[j - 1];
        assert paths[i][|root| + 1..] == a;
        assert paths[j][|root| + 1..] == b;
      }
    }
  }

  /**
   * After bootstrap the root exists; a root that existed leaves the host unchanged,
   * and a missing one gets exactly the six layout directories; a second bootstrap
   * changes nothing.
   */
  lemma BootstrappedLayout(dirs: set<string>, root: string)
    ensures root in Bootstrapped(dirs, root)
    ensures root in dirs ==> Bootstrapped(dirs, root) == dirs
    ensures root !in dirs ==>
      forall p :: p in Bootstrapped(dirs, root) <==> p in dirs || p in LayoutPaths(root)
    ensures Bootstrapped(Bootstrapped(dirs, root), root) == Bootstrapped(dirs, root)
  {
  }

  /**
   * `f'{name.split("/")[1]}/{name.split("/")[-1]}'`: the second segment of the name as
   * sub-directory, then the base name, no extension added; `IndexError` when the
   * name has no '/'.
   */
  function UploadTarget(name: string): (r: Result<string>)
    ensures r.Ok? <==> '/' in name
    ensures r.Raised? ==> r.error == IndexError
    ensures r.Ok? ==> |Split(name, '/')| >= 2 && Split(r.value, '/') == [Split(name, '/')[1], LastSegment(name, '/')]
  {
    var parts := Split(name, '/');
    SplitSeveralParts(name, '/');
    if |parts| < 2 then Raised(IndexError)
    else
      var subDir, baseName := parts[1], parts[|parts| - 1];
      SplitSeparatorFree(name, '/');
      SplitJoin([subDir, baseName], '/');
      Ok(subDir + "/" + baseName)
  }

  /** One more call appended to a trace that already ends with `done`. */
  lemma AppendOne(c0: seq<SftpCall>, done: seq<SftpCall>, call: SftpCall)
    ensures (c0 + done) + [call] == c0 + (done + [call])
  {
  }

  class SftpConnector {
    const host: string
    const username: string
    const password: string
    const remotePath: string
    const port: string

    var sshOpen: bool
    var sftpOpen: bool
    /** The SFTP session's working directory. */
    var cwd: string
    /** The directories that exist on the host. */
    var dirs: set<string>
    /** The files uploaded to the host. */
    var files: map<Location, PngFile>
    /** Every call made on the SSH and SFTP clients so far. */
    var calls: seq<SftpCall>

    /**
     * `__init__`: accept unknown host keys (`AutoAddPolicy`), connect, open the SFTP
     * channel, then bootstrap the remote root.
     */
    constructor(host: string, username: string, password: string, remotePath: string, port: string,
                hostDirs: set<string>, hostFiles: map<Location, PngFile>, homeDir: string)
      ensures this.host == host && this.username == username && this.password == password
      ensures this.remotePath == remotePath && this.port == port
      ensures sshOpen && sftpOpen && files == hostFiles
      ensures dirs == Bootstrapped(hostDirs, remotePath) && cwd == remotePath
      ensures calls == [AutoAddHostKeys, Connect(host, port, username, password), OpenSftp] + BootstrapCalls(remotePath, remotePath in hostDirs)
    {
      this.host, this.username, this.password := host, username, password;
      this.remotePath, this.port := remotePath, port;
      dirs, files, cwd := hostDirs, hostFiles, homeDir;
      sshOpen, sftpOpen := true, false;
      calls := [AutoAddHostKeys, Connect(host, port, username, password)];
      new;
      sftpOpen := true;
      calls := calls + [OpenSftp];
      DirExistOrCreateDir();
    }

    /** `sftp.mkdir(path)`. */
    method MakeDirectory(path: string)
      modifies this
      ensures dirs == old(dirs) + {path} && calls == old(calls) + [Mkdir(path)]
      ensures cwd == old(cwd) && files == old(files) && sshOpen == old(sshOpen) && sftpOpen == old(sftpOpen)
    {
      dirs := dirs + {path};
      calls := calls + [Mkdir(path)];
    }

    /**
     * `_dir_exist_or_create_dir`: `chdir(remote_path)`; if that fails, create the root
     * and its five sub-directories and `chdir` again.
     */
    method DirExistOrCreateDir()
      modifies this
      ensures dirs == Bootstrapped(old(dirs), remotePath) && cwd == remotePath
      ensures calls == old(calls) + BootstrapCalls(remotePath, remotePath in old(dirs))
      ensures files == old(files) && sshOpen == old(sshOpen) && sftpOpen == old(sftpOpen)
    {
      calls := calls + [Chdir(remotePath)];
      if remotePath in dirs {
        cwd := remotePath;
        return;
      }
      ghost var c0, d0 := old(calls), old(dirs);
      var layout := LayoutPaths(remotePath);
      MakeDirectory(layout[0]);  // the root
      AppendOne(c0, [Chdir(remotePath)], Mkdir(layout[0]));
      MakeDirectory(layout[1]);  // txt2img-images
      AppendOne(c0, [Chdir(remotePath)] + [Mkdir(layout[0])], Mkdir(layout[1]));
      MakeDirectory(layout[2]);  // txt2img-grids
      AppendOne(c0, [Chdir(remotePath)] + [Mkdir(layout[0])] + [Mkdir(layout[1])], Mkdir(layout[2]));
      MakeDirectory(layout[3]);  // img2img-images
      AppendOne(c0, [Chdir(remotePath)] + [Mkdir(layout[0])] + [Mkdir(layout[1])] + [Mkdir(layout[2])], Mkdir(layout[3]));
      MakeDirectory(layout[4]);  // img2img-grids
      AppendOne(c0, [Chdir(remotePath)] + [Mkdir(layout[0])] + [Mkdir(layout[1])] + [Mkdir(layout[2])] + [Mkdir(layout[3])],
                Mkdir(layout[4]));
      MakeDirectory(layout[5]);  // extras-images
      AppendOne(c0, [Chdir(remotePath)] + [Mkdir(layout[0])] + [Mkdir(layout[1])] + [Mkdir(layout[2])] + [Mkdir(layout[3])]
                + [Mkdir(layout[4])], Mkdir(layout[5]));
      calls := calls + [Chdir(remotePath)];
      AppendOne(c0, [Chdir(remotePath)] + [Mkdir(layout[0])] + [Mkdir(layout[1])] + [Mkdir(layout[2])] + [Mkdir(layout[3])]
                + [Mkdir(layout[4])] + [Mkdir(layout[5])], Chdir(remotePath));
      assert dirs == d0 + {layout[0]} + {layout[1]} + {layout[2]} + {layout[3]} + {layout[4]} + {layout[5]};
      cwd := remotePath;
    }

    /**
     * `store_file`: add every `png_info` entry as a text chunk, encode, and `putfo` to
     * `<sub_dir>/<base name>` relative to the working directory.
     */
    method StoreFile(name: string, image: Image, pngInfo: PngInfo) returns (r: Result<()>)
      modifies this
      ensures r.Raised? <==> UploadTarget(name).Raised?
      ensures r.Raised? ==> r.error == IndexError && files == old(files) && calls == old(calls)
      ensures r.Ok? ==>
        && files == old(files)[Location(cwd, UploadTarget(name).value) := PngFile(image, TextChunks(pngInfo))]
        && calls == old(calls) + [PutFo(UploadTarget(name).value)]
      ensures cwd == old(cwd) && dirs == old(dirs) && sshOpen == old(sshOpen) && sftpOpen == old(sftpOpen)
    {
      var chunks := BuildTextChunks(pngInfo);
      var bytes := PngFile(image, chunks);
      var parts := Split(name, '/');
      var baseName := parts[|parts| - 1];
      if |parts| < 2 {
        return Raised(IndexError);
      }
      var subDir := parts[1];
      var target := subDir + "/" + baseName;
      calls := calls + [PutFo(target)];
      files := files[Location(cwd, target) := bytes];
      return Ok(());
    }

    /** `before_unload`: close the SFTP channel, then the SSH session. */
    method BeforeUnload()
      modifies this
      ensures !sftpOpen && !sshOpen && calls == old(calls) + [CloseSftp, CloseSsh]
      ensures cwd == old(cwd) && dirs == old(dirs) && files == old(files)
    {
      sftpOpen := false;
      sshOpen := false;
      calls := calls + [CloseSftp, CloseSsh];
    }
  }
}
