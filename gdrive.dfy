/**
 * The Google Drive connector (GDriveConnector.py). The OAuth state, the Drive's
 * root-level items and the uploads made are abstract state; what the OAuth server
 * answers is an input. Calls into pydrive2 and `requests` are recorded in a trace.
 */
module GDrive {
  import opened Runtime
  import opened Text
  import opened Png

  /** OAuth credentials: the access token (possibly missing) and whether it has expired. */
  datatype Credentials = Credentials(accessToken: Option<string>, expired: bool)

  /** The three ways `__init__` obtains usable credentials. */
  datatype AuthStep = LocalWebserverAuth | Refresh | Authorize

  /** How the chosen step ends: with the credentials it leaves, or one of the two exceptions caught. */
  datatype AuthOutcome = Succeeded(credentials: Credentials) | Rejected | Failed

  /** A root-level Drive item as `ListFile` returns it. */
  datatype DriveItem = DriveItem(id: string, title: string, mimeType: string)

  const FolderMimeType: string := "application/vnd.google-apps.folder"

  /** The JSON part of the multipart upload. `None` stands for a JSON `null` parent. */
  datatype UploadMetadata = UploadMetadata(name: string, parents: seq<Option<string>>)

  /** One multipart POST to the upload endpoint. */
  datatype Upload = Upload(metadata: UploadMetadata, file: PngFile, bearer: string)

  datatype DriveCall =
    | LoadCredentialsFile
    | RunAuth(step: AuthStep)
    | SaveCredentialsFile
    | ListRoot
    | CreateFolder(title: string, mimeType: string)
    | PostUpload

  /** Which step `__init__` takes on the credentials loaded from `credentials.json`. */
  function AuthAction(loaded: Option<Credentials>): (step: AuthStep)
    ensures step == LocalWebserverAuth <==> loaded.None?
    ensures step == Refresh <==> loaded.Some? && loaded.value.expired
    ensures step == Authorize <==> loaded.Some? && !loaded.value.expired
  {
    if loaded.None? then LocalWebserverAuth
    else if loaded.value.expired then Refresh
    else Authorize
  }

  /** The position of the first item titled `title`, or `|items|` when there is none. */
  function FirstIndexWithTitle(items: seq<DriveItem>, title: string): (k: nat)
    ensures k <= |items|
    ensures k < |items| ==> items[k].title == title
    ensures forall j :: 0 <= j < k ==> items[j].title != title
  {
    if |items| == 0 then 0
    else if items[0].title == title then 0
    else 1 + FirstIndexWithTitle(items[1..], title)
  }

  /** The id of the first item titled `title`, or `None`; the search returns at the first match. */
  function FirstWithTitle(items: seq<DriveItem>, title: string): (r: Option<string>)
    ensures r.None? <==> forall i :: 0 <= i < |items| ==> items[i].title != title
  {
    var k := FirstIndexWithTitle(items, title);
    if k < |items| then Some(items[k].id) else None
  }

  /**
   * The lookup's first-match rule is positional: adding an item at the end never
   * changes a match already found, and a folder created because nothing matched is
   * the one the next lookup finds.
   */
  lemma {:induction false} FirstWithTitleAppend(items: seq<DriveItem>, title: string, item: DriveItem)
    ensures FirstWithTitle(items, title).Some? ==> FirstWithTitle(items + [item], title) == FirstWithTitle(items, title)
    ensures FirstWithTitle(items, title).None? && item.title == title ==> FirstWithTitle(items + [item], title) == Some(item.id)
    decreases |items|
  {
    if |items| > 0 {
      assert (items + [item])[1..] == items[1..] + [item];
      FirstWithTitleAppend(items[1..], title, item);
    }
  }

  /** The upload metadata: the base name with ".png" appended, under the remembered folder. */
  function UploadMetadataFor(filename: string, dirId: Option<string>): (m: UploadMetadata)
    ensures m.parents == [dirId]
    ensures |m.name| >= 4 && m.name[|m.name| - 4..] == ".png"
    ensures m.name[..|m.name| - 4] == LastSegment(filename, '/')
    ensures '/' !in m.name
  {
    LastSegmentIsSuffix(filename, '/');
    var name := LastSegment(filename, '/') + ".png";
    assert name[|name| - 4..] == ".png";
    UploadMetadata(name, [dirId])
  }

  class GDriveConnector {
    const clientSecretPath: string
    const dirName: string

    /** The credentials held by `gauth`. */
    var credentials: Option<Credentials>
    /** The content of `credentials.json`. */
    var credentialsFile: Option<Credentials>
    /** The items directly under the Drive root. */
    var rootItems: seq<DriveItem>
    /** The folder id remembered for uploads. */
    var dirId: Option<string>
    /** Every upload posted so far. */
    var uploads: seq<Upload>
    var calls: seq<DriveCall>

    /**
     * `__init__`: load saved credentials, take the step `AuthAction` picks, save the
     * credentials unless the step raised `AuthenticationRejected` or `AuthenticationError`
     * (both caught), then look up or create the folder.
     */
    constructor(clientSecretPath: string, dirName: string, savedCredentials: Option<Credentials>,
                outcome: AuthOutcome, driveRoot: seq<DriveItem>, newFolderId: string)
      ensures this.clientSecretPath == clientSecretPath && this.dirName == dirName
      ensures credentials == (if outcome.Succeeded? then Some(outcome.credentials) else savedCredentials)
      ensures credentialsFile == credentials
      ensures dirId == FirstWithTitle(driveRoot, dirName)
      ensures rootItems == if dirId.Some? then driveRoot else driveRoot + [DriveItem(newFolderId, dirName, FolderMimeType)]
      ensures uploads == []
      ensures calls == [LoadCredentialsFile, RunAuth(AuthAction(savedCredentials))] +
                       (if outcome.Succeeded? then [SaveCredentialsFile] else []) + [ListRoot] +
                       (if dirId.Some? then [] else [DriveCall.CreateFolder(dirName, FolderMimeType)])
    {
      this.clientSecretPath, this.dirName := clientSecretPath, dirName;
      credentials := savedCredentials;
      credentialsFile := savedCredentials;
      rootItems, uploads := driveRoot, [];
      dirId := None;
      calls := [LoadCredentialsFile, RunAuth(AuthAction(savedCredentials))];
      new;
      if outcome.Succeeded? {
        credentials := Some(outcome.credentials);
        credentialsFile := credentials;
        calls := calls + [SaveCredentialsFile];
      }
      dirId := GetGdriveFolderId(newFolderId);
    }

    /**
     * `get_gdrive_folder_id`: the id of the first root item titled `dir_name`; when
     * none is, create the folder and return `None`, not the new folder's id.
     */
    method GetGdriveFolderId(newFolderId: string) returns (id: Option<string>)
      modifies this
      ensures id == FirstWithTitle(old(rootItems), dirName)
      ensures rootItems == if id.Some? then old(rootItems) else old(rootItems) + [DriveItem(newFolderId, dirName, FolderMimeType)]
      ensures calls == old(calls) + [ListRoot] + (if id.Some? then [] else [DriveCall.CreateFolder(dirName, FolderMimeType)])
      ensures credentials == old(credentials) && credentialsFile == old(credentialsFile)
      ensures dirId == old(dirId) && uploads == old(uploads)
    {
      var folders := rootItems;
      calls := calls + [ListRoot];
      var i := 0;
      while i < |folders|
        invariant 0 <= i <= |folders|
        invariant forall j :: 0 <= j < i ==> folders[j].title != dirName
        invariant FirstWithTitle(folders, dirName) == FirstWithTitle(folders[i..], dirName)
      {
        if folders[i].title == dirName {
          return Some(folders[i].id);
        }
        assert folders[i..][1..] == folders[i + 1..];
        i := i + 1;
      }
      CreateFolder(newFolderId);
      return None;
    }

    /** `create_folder`: a new root-level item with the folder title and mimeType; Drive picks its id. */
    method CreateFolder(newFolderId: string)
      modifies this
      ensures rootItems == old(rootItems) + [DriveItem(newFolderId, dirName, FolderMimeType)]
      ensures calls == old(calls) + [DriveCall.CreateFolder(dirName, FolderMimeType)]
      ensures credentials == old(credentials) && credentialsFile == old(credentialsFile)
      ensures dirId == old(dirId) && uploads == old(uploads)
    {
      rootItems := rootItems + [DriveItem(newFolderId, dirName, FolderMimeType)];
      calls := calls + [DriveCall.CreateFolder(dirName, FolderMimeType)];
    }

    /**
     * `store_file`: nothing is uploaded without an access token; without credentials
     * at all, reading the token raises `AttributeError`.
     */
    method StoreFile(name: string, image: Image, pngInfo: PngInfo) returns (r: Result<()>)
      modifies this
      ensures credentials.None? ==> r == Raised(AttributeError) && uploads == old(uploads) && calls == old(calls)
      ensures credentials.Some? && credentials.value.accessToken.None? ==>
        r == Ok(()) && uploads == old(uploads) && calls == old(calls)
      ensures credentials.Some? && credentials.value.accessToken.Some? ==>
        && r == Ok(())
        && uploads == old(uploads) + [Upload(UploadMetadataFor(name, dirId), PngFile(image, TextChunks(pngInfo)),
                                             credentials.value.accessToken.value)]
        && calls == old(calls) + [PostUpload]
      ensures credentials == old(credentials) && credentialsFile == old(credentialsFile)
      ensures dirId == old(dirId) && rootItems == old(rootItems)
    {
      if credentials.None? {
        return Raised(AttributeError);
      }
      if credentials.value.accessToken.None? {
        return Ok(());
      }
      var chunks := BuildTextChunks(pngInfo);
      SaveImageRequest(PngFile(image, chunks), name);
      return Ok(());
    }

    /** `save_image_request`: one multipart POST with the metadata and the file, bearing the access token. */
    method SaveImageRequest(file: PngFile, filename: string)
      requires credentials.Some? && credentials.value.accessToken.Some?
      modifies this
      ensures credentials == old(credentials) && credentialsFile == old(credentialsFile)
      ensures uploads == old(uploads) + [Upload(UploadMetadataFor(filename, dirId), file, credentials.value.accessToken.value)]
      ensures calls == old(calls) + [PostUpload]
      ensures dirId == old(dirId) && rootItems == old(rootItems)
    {
      var metadata := UploadMetadataFor(filename, dirId);
      uploads := uploads + [Upload(metadata, file, credentials.value.accessToken.value)];
      calls := calls + [PostUpload];
    }

    /** `before_unload` does nothing. */
    method BeforeUnload()
      ensures unchanged(this)
    {
    }
  }
}
