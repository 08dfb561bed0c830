# sd-web-ui-connect-extention, modelled in Dafny

The extension copies every image that the Stable Diffusion web UI saves to remote
storage: SMB shares, SFTP hosts and a Google Drive folder. It also adds a browser tab
meant to page through the images stored on one SMB or SFTP connection. Neither
`SMBConector` nor `SFTPConnector` defines the `traverse` and `download` methods the tab
calls, so as written every page request with a connector selected raises
`AttributeError` at UI.py:376. The model states what the tab does on the interface
the code assumes.

This project models the extension's core in Dafny and proves properties of that model:
- **Settings parsing.** `ConfigObject` reads comma-separated, colon-paired option strings.
- **The connector registry.** `ConnectorManager` keeps its list of connectors.
- **The save hook.** `setup_connectors`, `save_image_callback` and `on_app_started` run the registry.
- **The three connectors.** Each has its own bootstrap and upload-path rules.
- **The browser's logic.** Connector selection, page clamping and slicing, the page buttons and the info panel.

Layout, one module per source file it models:

| file | module | models |
|---|---|---|
| runtime.dfy | `Runtime` | `None`, uncaught exceptions (`Result.Raised`), Python indexing and slicing |
| text.dfy | `Text` | `str.split` with a one-character separator, `split(...)[-1]`, `str()` of an integer |
| png.dfy | `Png` | images, `png_info` dictionaries and the text chunks the connectors embed |
| config.dfy | `Config`, `ConfigProperties` | ConfigObject.py |
| smb.dfy | `Smb` | SMBConnector.py |
| sftp.dfy | `Sftp` | SFTPConnector.py |
| gdrive.dfy | `GDrive` | GDriveConnector.py |
| manager.dfy | `Manager` | ConnectorManager.py |
| extension.dfy | `Extension` | scripts/main.py |
| paging.dfy | `Paging` | the page arithmetic of `UI.get_image_page` |
| ui.dfy | `Ui` | UI.py |

Modelling choices:
- **Connectors in the registry.** A connector instance in the registry is a `ConnectorId` value: its kind plus the arguments it was constructed with. The manager records every call it makes on a connector in a trace: `Construct`, `Store` and `Unload`. That is enough to state order, count and "nothing else changes" for the registry and the save hook. Each connector is also a class of its own over abstract remote state:
  - SMB: the share's root listing and files.
  - SFTP: the host's directory set, the working directory and the files.
  - Google Drive: the credentials, the credentials file, the root items and the uploads.
  
  Each of these classes records its calls into pysmb, paramiko or pydrive2 in a trace of its own.
- **Exceptions** become `Raised(IndexError | KeyError | TypeError | AttributeError)`. The option getters return `Absent` (Python `None`), `Rows(rows)` or `Raises(error)`.
- **Settings** (`shared.opts`) are one `Config.Options` value of plain strings passed to every operation. The web UI's output directories are a second value, `Ui.OutputDirs`.
- **The browsing connector's `traverse` and `download`** are called by `get_image_page`, but no connector in the repository defines them (so the real call raises `AttributeError`). They become the two functions of a `Ui.Remote` value that is passed in, which models the interface the code assumes.
- **Google Drive credentials.** Whether the Drive connector holds credentials once its constructor has run is an input of the save hook (`driveSignedIn`). That is the case when the auth step succeeded or a credentials file was loaded: a failed `Refresh()` or `Authorize()` keeps the loaded credentials (GDriveConnector.py:24-37). `store_file` dereferences `gauth.credentials`, which is `None` only when no credentials file was loaded and the web-server authentication failed.
- **PNG encoding is not modelled byte by byte.** An encoded file is the image plus its list of text chunks (`Png.PngFile`).

The model follows the code as written, including where it departs from the evident design:
- **Save fan-out.** Failures are not isolated per connector. `save_image` is a plain loop, so the first exception ends the save (`Manager.SaveImage`).
- **The three-argument store call.** `SMBConector.store_file` takes two arguments and the manager passes three, so any configured SMB connector raises `TypeError` on every save. It also stops every connector after it (`Extension.SmbConfiguredBlocksEverySave`).
- **SFTP names without '/'.** `SFTPConnector.store_file` takes `name.split('/')[1]`, so a name without '/' raises `IndexError` and stops the save at the first SFTP connector (`Extension.SftpNameWithoutSlashBlocksEverySave`).
- **Google Drive without credentials.** `GDriveConnector.store_file` raises `AttributeError` when authentication failed, after every SFTP connector has stored and before any connector is unloaded (`Extension.DriveWithoutCredentialsFailsLast`). `Extension.CallbackOutcome` gives the save hook's result for every combination.
- **Nested SMB save directories.** The root listing holds single names, so a `save_dir` with a '/' is never found there and every bootstrap asks to create it again (`Smb.WithDirectoryAdds`).
- **The default SMB path.** The settings text says an empty SMB path means `sd_web_ui` (scripts/main.py:28), but `get_smb_config` returns `None` for an empty path (ConfigObject.py:10), so no SMB connector is built (`ConfigProperties.SmbConfigAbsent`).
- **Page count.** The page count is `length // 60 + 1`, not a ceiling (`Paging.MaxPageIndex`).
- **The summary message's page count** is `(length + 1) // 60 + 1`. It differs from the real page count by one exactly when `length % 60 == 59` (`Paging.ShownPageCountAgainstMax`).
- **Listings** are not filtered for `.` and `..`.
- **Fetch.** There is no fetch-by-path operation.

## Model

| member | source | states |
|---|---|---|
| Runtime.Index | UI.py:360-361 | `s[i]` exists exactly for `-len(s) <= i < len(s)`; a negative index counts from the end |
| Runtime.Slice | UI.py:394 | `s[lo:hi]` clamps both ends to the length; element `i` of the slice is element `lo + i` of `s` |
| Text.Split | ConfigObject.py:62-63 | `split` always yields at least one part, so the parsers' `len == 0` tests never fire |
| Text.SplitSeparatorFree | ConfigObject.py:13-20 | no part of a split contains the separator |
| Text.JoinSplit | ConfigObject.py:13-20 | joining the parts of a split with the separator gives back the string |
| Text.SplitJoin | ConfigObject.py:13-20 | splitting a join of separator-free parts gives back the parts |
| Text.SplitWithoutSeparator | SMBConnector.py:40 | a string without the separator splits into itself alone |
| Text.SplitConcat | SMBConnector.py:42 | `split(a + sep + b)` is `split(a) + split(b)` |
| Text.SplitSeveralParts | SFTPConnector.py:85 | a split has at least two parts exactly when the separator occurs |
| Text.LastSegmentIsSuffix | UI.py:165 | `split(sep)[-1]` is the separator-free suffix after the last separator, or the whole string |
| Text.JoinLastPart | SMBConnector.py:40-42 | the last part of a join is a suffix of it, preceded by the separator when there are several parts |
| Text.DigitChar | UI.py:414 | every digit maps to a decimal digit character |
| Text.NatToString | UI.py:414 | `str(n)` is a non-empty string of digits without a leading zero unless `n == 0` |
| Text.DecimalValueOfNatToString | UI.py:414 | reading `str(n)` back as a decimal gives `n` |
| Text.NatToStringInjective | UI.py:414 | different page numbers are rendered differently |
| Png.BuildTextChunks | SFTPConnector.py:79-81 | the loop adds one text chunk per `png_info` entry, in order, with `str(v)` as its value |
| Png.TextOfTextChunks | SFTPConnector.py:79-82 | in the encoded file each key carries `str` of its value, and a key that is not in `png_info` has no chunk |
| Config.ColonSplitEntries | ConfigObject.py:18-20 | one `:`-split list per comma-separated entry, in order |
| Config.RowsUpToRows | ConfigObject.py:27-39 | the row loop succeeds exactly when every row succeeds; then row `i` of the list is row `i` of the settings; any failure is an `IndexError` |
| Config.RowsUpToStaysRaised | ConfigObject.py:27-38 | once an iteration raises, the rest of the loop does not change the outcome |
| Config.RowsUpToFails | ConfigObject.py:27-38 | the first row that raises decides the exception of the whole loop |
| Config.BuildSmbRows | ConfigObject.py:22-39 | the SMB loop returns exactly the rows of its specification, or the exception it raises |
| Config.GetSmbConfig | ConfigObject.py:8-39 | `get_smb_config` computes the specified parse: `None`, rows or an exception |
| Config.BuildSftpRows | ConfigObject.py:60-76 | the SFTP loop returns exactly the rows of its specification, or the exception it raises |
| Config.GetSftpConfig | ConfigObject.py:50-76 | `get_sftp_config` computes the specified parse: `None`, rows or an exception |
| Config.GDriveConfig | ConfigObject.py:42-48 | `None` exactly when the client secret or the save directory is empty, else the pair |
| ConfigProperties.SmbConfigAbsent | ConfigObject.py:10-25 | `None` exactly when one of path, user:passwd, ip:port or server:service is empty or its comma count differs from the paths'; the domain is not checked |
| ConfigProperties.SmbConfigRaises | ConfigObject.py:27-36 | the parser raises exactly when some entry lacks a `:` or the domain list is too short, and then it raises `IndexError` |
| ConfigProperties.SmbConfigRowFields | ConfigObject.py:27-39 | one row per path, in order, `[user, passwd, "local", server, service, domain, ip, port, path]`; parts after the second `:` are dropped |
| ConfigProperties.SftpConfigAbsent | ConfigObject.py:52-66 | `None` exactly when user:passwd or ip:port is empty or their comma counts differ |
| ConfigProperties.SftpConfigRaises | ConfigObject.py:68-73 | the parser raises exactly when some entry lacks a `:` or the remote-path list is too short, and then it raises `IndexError` |
| ConfigProperties.SftpConfigRowFields | ConfigObject.py:68-76 | one row per user:passwd entry, in order, `[ip, user, passwd, remote_path[i], port]` |
| ConfigProperties.SmbRowsHaveNineFields | ConfigObject.py:37 | every SMB row has nine fields, the third being `"local"` |
| ConfigProperties.SftpRowsHaveFiveFields | ConfigObject.py:73 | every SFTP row has five fields |
| Smb.UploadPath | SMBConnector.py:40-42 | the upload path is `save_dir` followed by the name's last `/`-segment, with no sub-directory and no extension |
| Smb.WithDirectoryAdds | SMBConnector.py:47-51 | bootstrap keeps the listing and adds at most `save_dir`; `save_dir` is listed afterwards exactly when it was or is a single name; a nested `save_dir` stays unlisted, so each later bootstrap creates it again |
| Smb.SmbConnector.constructor | SMBConnector.py:9-33 | fields stored; connect, then list the root, then create `save_dir` only if missing |
| Smb.SmbConnector.DirExistOrCreateDir | SMBConnector.py:47-51 | the scan stops at a matching entry; otherwise exactly one `createDirectory(save_dir)`, which the root listing shows only for a single name |
| Smb.SmbConnector.StoreFile | SMBConnector.py:36-42 | the image is stored without metadata at `UploadPath(save_dir, name)` on the service's share |
| Smb.SmbConnector.BeforeUnload | SMBConnector.py:44-45 | the session is closed and nothing else changes |
| Sftp.LayoutPaths | SFTPConnector.py:99-104 | the root, then its five sub-directories in the order they are created |
| Sftp.LayoutPathsDistinct | SFTPConnector.py:99-104 | the six bootstrap directories are pairwise different |
| Sftp.BootstrappedLayout | SFTPConnector.py:95-105 | after bootstrap the root exists; an existing root changes nothing; a missing one adds exactly the six layout directories; bootstrap is idempotent |
| Sftp.UploadTarget | SFTPConnector.py:84-88 | `IndexError` exactly when the name has no `/`; otherwise the second segment, `/`, and the last segment |
| Sftp.SftpConnector.constructor | SFTPConnector.py:47-74 | set the auto-add host key policy, connect, then open SFTP, then bootstrap; the working directory ends at `remote_path` |
| Sftp.SftpConnector.MakeDirectory | SFTPConnector.py:99 | `mkdir` adds one directory and nothing else |
| Sftp.SftpConnector.DirExistOrCreateDir | SFTPConnector.py:95-105 | `chdir`; on failure six `mkdir`s and a second `chdir`; the directory set becomes `Bootstrapped` |
| Sftp.SftpConnector.StoreFile | SFTPConnector.py:76-88 | every `png_info` entry becomes a text chunk; the file goes to `UploadTarget(name)` relative to the working directory, or `IndexError` |
| Sftp.SftpConnector.BeforeUnload | SFTPConnector.py:90-93 | close SFTP, then SSH |
| GDrive.AuthAction | GDriveConnector.py:24-33 | interactive auth without saved credentials, refresh when expired, authorize otherwise |
| GDrive.FirstIndexWithTitle | GDriveConnector.py:76-80 | the position of the first root item with the title, and no earlier one has it |
| GDrive.FirstWithTitle | GDriveConnector.py:75-83 | `None` exactly when no root item has the title |
| GDrive.FirstWithTitleAppend | GDriveConnector.py:76-80 | an item added after a match does not change the answer; a matching item added where none matched is found |
| GDrive.UploadMetadataFor | GDriveConnector.py:61-64 | the upload name is the file name's last `/`-segment plus `.png`, with `[dir_id]` as parents |
| GDrive.GDriveConnector.constructor | GDriveConnector.py:17-43 | the chosen auth step; credentials saved only when auth succeeds; rejected auth is caught; `dir_id` is the found folder or `None` after creating one |
| GDrive.GDriveConnector.GetGdriveFolderId | GDriveConnector.py:75-83 | returns the first matching folder's id; otherwise creates the folder and returns `None` |
| GDrive.GDriveConnector.CreateFolder | GDriveConnector.py:85-92 | one folder with `dir_name` and the folder mime type is added |
| GDrive.GDriveConnector.StoreFile | GDriveConnector.py:45-54 | no credentials raise `AttributeError`, no access token uploads nothing, otherwise one upload with the embedded `png_info` |
| GDrive.GDriveConnector.SaveImageRequest | GDriveConnector.py:57-73 | one multipart upload with `UploadMetadataFor(filename, dir_id)` and the bearer token |
| GDrive.GDriveConnector.BeforeUnload | GDriveConnector.py:95-96 | nothing changes |
| Manager.StoreOutcome | ConnectorManager.py:106-107 | what `store_file(name, image, png_info)` raises: `TypeError` on SMB; on SFTP `IndexError` exactly when the name has no `/` (as `Sftp.UploadTarget`); on Google Drive `AttributeError` exactly without credentials |
| Manager.FirstRaising | ConnectorManager.py:106-107 | the first connector whose `store_file` raises for this name and credential state, and every earlier one returns |
| Manager.StoreCalls | ConnectorManager.py:104-107 | one `store_file(name, image, png_info)` per connector, in list order, with the same arguments |
| Manager.UnloadCalls | ConnectorManager.py:145-148 | one `before_unload` per connector, in list order |
| Manager.Attempted | ConnectorManager.py:106-107 | a prefix of the list in which every call but the last returns; it is the whole list, or ends at a connector that raises, and is the whole list exactly when no connector before the last raises |
| Manager.ConnectorManager.constructor | ConnectorManager.py:31-39 | a new manager holds no connectors |
| Manager.ConnectorManager.Reset | ConnectorManager.py:41-43 | the list becomes empty and no connector is unloaded |
| Manager.ConnectorManager.CreateSmbConnector | ConnectorManager.py:45-69 | one SMB connector built from the nine arguments, in order, is appended at the end |
| Manager.ConnectorManager.CreateSftpConnector | ConnectorManager.py:71-82 | one SFTP connector built from the five arguments, in order, is appended at the end |
| Manager.ConnectorManager.CreateGdriveConnector | ConnectorManager.py:84-98 | always constructed; appended only when `authen_only` is false |
| Manager.ConnectorManager.CreateDropboxConnector | ConnectorManager.py:100-102 | always fails: declared without `self`, so a call on the manager raises `TypeError` |
| Manager.ConnectorManager.SaveImage | ConnectorManager.py:104-107 | stores through the connectors in order until the first raise, which ends the loop with that connector's exception; raises exactly when some connector raises; the list is unchanged |
| Manager.ConnectorManager.UiGetSmbConnector | ConnectorManager.py:109-132 | returns a fresh SMB connector and leaves the list unchanged |
| Manager.ConnectorManager.UiGetSftpConnector | ConnectorManager.py:134-143 | returns a fresh SFTP connector and leaves the list unchanged |
| Manager.ConnectorManager.BeforeUnload | ConnectorManager.py:145-148 | unloads every connector in list order; the list is unchanged |
| Extension.SmbConnectors | scripts/main.py:66-67 | one SMB connector per row, with the row's nine fields passed in order |
| Extension.SftpConnectors | scripts/main.py:71-72 | one SFTP connector per row, with the row's five fields passed in order |
| Extension.SetupOfStages | scripts/main.py:62-75 | the three stages' appends concatenate to the setup's connectors and construction calls |
| Extension.ConfigShaped | scripts/main.py:64-72 | the parsers' rows have as many fields as the constructors take |
| Extension.Constructs | scripts/main.py:62-75 | one construction call per connector, in order |
| Extension.AppendSmbConnectors | scripts/main.py:65-67 | the SMB loop appends exactly `SmbConnectors(rows)` |
| Extension.AppendSftpConnectors | scripts/main.py:70-72 | the SFTP loop appends exactly `SftpConnectors(rows)` |
| Extension.SetupConnectors | scripts/main.py:62-75 | appends the planned setup's connectors and raises the planned exception, if any |
| Extension.SetupOfOrdered | scripts/main.py:62-75 | a complete setup has `|smb| + |sftp| + (gdrive ? 1 : 0)` connectors, SMB before SFTP before Google Drive |
| Extension.SmbRowCount | ConfigObject.py:27-38 | the SMB parser returns one row per path entry |
| Extension.SftpRowCount | ConfigObject.py:68-74 | the SFTP parser returns one row per user:passwd entry |
| Extension.SetupCountAndOrder | scripts/main.py:62-75 | the same count and order in terms of the settings strings |
| Extension.SetupOfStartsWithSmb | scripts/main.py:64-67 | the setup starts with the SMB connectors |
| Extension.SetupOfSftpAfterSmb | scripts/main.py:69-72 | the SFTP connectors follow the SMB ones |
| Extension.SetupSftpAt | scripts/main.py:69-72 | the connector after the SMB ones and `i` SFTP ones is built from SFTP row `i` |
| Extension.SmbConnectorFromSettings | scripts/main.py:64-67 | SMB connector `i` gets row `i`'s credentials, "local", server, service, domain, address and path |
| Extension.SaveImageCallback | scripts/main.py:52-59 | reset, setup, save, unload: the list becomes exactly the planned setup, with no connector from an earlier save; the trace and the result (a parser's exception, else the first failing store's) follow the plan |
| Extension.CallbackTraceShapes | scripts/main.py:52-59 | the save hook's trace on each of its three exits |
| Extension.TraceStoppedAtFirst | scripts/main.py:58-59 | when the first connector raises, the trace after the constructions is that one store call, with no unload |
| Extension.TraceStoppedAtLast | scripts/main.py:58-59 | when only the last connector raises, every connector gets the store call and none is unloaded |
| Extension.TraceNotStopped | scripts/main.py:58-59 | when no connector raises, every connector stores, then every connector is unloaded |
| Extension.SetupOfStoreOutcome | ConnectorManager.py:104-107 | on a complete setup the save stops at connector 0 for SMB rows or SFTP rows with a name without `/`, after the SFTP connectors for Drive without credentials, and nowhere exactly otherwise; with the matching exception |
| Extension.ConfigRowsPresent | ConfigObject.py:27-39 | a parser that returns rows returns at least one |
| Extension.CallbackOutcome | scripts/main.py:52-59 | a complete setup's save raises `TypeError` with SMB configured, else `IndexError` with SFTP configured and a name without `/`, else `AttributeError` with Drive configured and no credentials, and succeeds exactly otherwise |
| Extension.SmbConfiguredBlocksEverySave | scripts/main.py:58 | with SMB configured, every save raises `TypeError` at the first SMB connector, and no other connector stores or unloads |
| Extension.SftpNameWithoutSlashBlocksEverySave | SFTPConnector.py:85 | without SMB rows, an SFTP setup and a name without `/` make every save raise `IndexError` at the first SFTP connector, with no store completed and no unload |
| Extension.DriveWithoutCredentialsFailsLast | GDriveConnector.py:46 | when only Drive fails, every connector gets the store call, Drive last raises `AttributeError`, and no connector is unloaded |
| Extension.WithoutSmbEveryConnectorStores | scripts/main.py:52-59 | without SMB connectors, with a name holding `/` when SFTP is configured and credentials when Drive is, every connector stores once and is unloaded once, in order |
| Extension.OnAppStarted | scripts/main.py:43-47 | at start-up Google Drive is only constructed for authentication; the list is unchanged |
| Paging.MaxPageIndex | UI.py:378-379 | `length // 60 + 1`: at least 1, and the last page starts at or before `length` |
| Paging.ResolvePageIndex | UI.py:384-386 | `-1` selects the last page, below 1 gives 1, above the maximum gives the maximum; always in `[1, max]` |
| Paging.Reversed | UI.py:376 | `[::-1]`: same length, element `i` is element `len - 1 - i` |
| Paging.ReversedTwice | UI.py:376 | reversing twice gives the listing back |
| Paging.PageWindowContents | UI.py:387-394 | a page holds at most 60 entries, the ones from `(p - 1) * 60` on, in order |
| Paging.PagesCoverListing | UI.py:376-394 | entry `k` appears on page `k // 60 + 1`, which is a valid page |
| Paging.LastPageSize | UI.py:378-394 | the last page holds `length % 60` entries, none when `length` is a multiple of 60 |
| Paging.ShownPageCount | UI.py:409 | the summary message names at least one page |
| Paging.ShownPageCountAgainstMax | UI.py:379-409 | the summary's count equals the page count except when `length % 60 == 59`, where it is one more |
| Ui.Selection | UI.py:83-108 | SMB and SFTP give the connector built from configuration row `selected_index` (Python indexing, so `-1` is the last row); an absent config raises `TypeError`, a parser exception propagates, an index out of range raises `IndexError`; any other type gives `None` |
| Ui.SmbSelectionMatchesSetup | UI.py:84-96 | the browser's SMB connector `i` is the save hook's connector `i`, with `-1` the last one |
| Ui.SftpSelectionMatchesSetup | UI.py:98-106 | the browser's SFTP connector `i` is the save hook's SFTP connector `i`, after the SMB ones |
| Ui.SftpSelectionFromSettings | UI.py:98-106 | the browser's SFTP connector `i`, `-1` included and whatever the SMB parser does, gets host and port from the `i`-th ip:port entry, user and password from the `i`-th user:passwd entry, and the `i`-th remote path |
| Ui.DirNameForTab | UI.py:163-173 | the tab's directory name is the last `/`-segment of its output directory |
| Ui.NavigationResolves | UI.py:257-279 | every button negates the dispatcher, so it changes whenever it is non-zero; First resolves to 1, End to the last page, Next and Prev move by one within the range, and Prev from page 0 wraps to the last page |
| Ui.SetImageInfo | UI.py:353-362 | the `"parameters"` entry and the file name at the same index, exactly when both exist; `IndexError` when the info list or the name list has no such index, `KeyError` when the info lacks `"parameters"` |
| Ui.UI.constructor | UI.py:40-69 | the initial fields, and the SMB connector for index 0 when the SMB settings allow one; the manager's trace gains exactly that connector's construction and its list is unchanged |
| Ui.UI.GetConnector | UI.py:71-110 | returns `-s` and selects the connector for the type and index, `None` for another type; the exception when the selection raises |
| Ui.UI.ChangeConnector | UI.py:132-135 | stores the index and returns `-renew`; nothing else changes |
| Ui.UI.GetImagePage | UI.py:364-419 | no connector gives `([], "1", no-connection message, 1, [], [])`; otherwise the paths are exactly the resolved page window of the reversed listing, `min(60, length - start)` of them or none past the end, with downloads in path order, `str(page)` and the page count |
| Ui.UI.ClickedImageInfo | UI.py:341-362 | clicking image `i` of a page shows that image's `"parameters"` and its path |
| Ui.UI.NewestFirst | UI.py:376-394 | the first page opens with the last-listed entry, and `-1` resolves to the last page |

## Left out

- Transports are not modelled. Connections, uploads and folder listings always succeed. paramiko, pysmb, pydrive2 and `requests` are abstract state plus a call trace. Network faults, `OSError`s other than a failing `chdir`, and `mkdir` on a directory that already exists are not modelled.
- PIL's PNG encoding is not modelled. An encoded file is the image plus its text chunks. `str()` is modelled for text, integer and boolean values only.
- The OAuth flow is not modelled: the local webserver, token refresh and `RefreshError`. The outcome of the chosen auth step is an input.
- The Gradio layout is not modelled: `on_ui_tabs`, widget construction in `create_tab`, `get_connector_no`'s radio update, `setup_options`, and javascript/index.js. install.py and preload.py are launch-time glue and not part of this model.
- `print`, `time` and the unused `visible_num` in `get_image_page` are left out, because none of them affects a result.
- `int(page_index_param)` and `int(image_index)` are not modelled. The model receives integers, so a string that is not a number (a `ValueError`) is not covered.
- Ui.UI.ChangeConnector: the radio widget delivers the index as a string. A later `get_connetor` then indexes the row list with a string and raises `TypeError`. The model takes an integer index.
- Ui.UI.constructor: where `get_connetor("SMB", 1)` raises inside `__init__` (no usable SMB settings), the model leaves the connector `None` instead of failing the construction, because a Dafny constructor cannot fail. In the source that failure happens at module load (`ui = UI(manager)`, scripts/main.py:79), so none of the callbacks at scripts/main.py:82-85 is registered.
- Ui.UI.GetImagePage: the connector branch models the interface the code assumes. `traverse` and `download` are functions of a `Remote` value supplied by the caller. No connector in the repository defines them, so the real call raises `AttributeError` at UI.py:376, which the model does not capture.
- Smb.SmbConnector.DirExistOrCreateDir: for a nested `save_dir`, whether pysmb's `createDirectory` raises for a missing parent, and what it lists in the root, are not modelled; the root listing is left as it was.
- Host keys are not modelled. The SFTP trace records that `AutoAddPolicy` is set before connecting, which makes paramiko trust any unknown host key, but no known-hosts state is kept.
- The `BaseConnector` interface is not a Dafny type. The registry holds `ConnectorId` values, and the connector classes stand alone.
