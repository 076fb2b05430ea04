/** The dashboard's module-level state (`currentFolderId`, `breadcrumbPath`,
    `isTrashView`, the two selection sets and the items the share and rename
    dialogs act on) and the handlers that change it: navigation, selection,
    bulk delete, the share dialog and the upload entry point.

    The server's answers are parameters; `requests` records, in order, the
    GET endpoints every `loadFiles` call asks for, which is all of
    `loadFiles` this model keeps besides clearing the selection. */
module Workspace {
  import opened Wrappers
  import opened JsStrings
  import opened Json
  import Api
  import Upload
  import Sharing

  /** The `id` of a breadcrumb entry: null for the root, a folder id, or 'trash'. */
  datatype CrumbId = RootCrumb | FolderCrumb(folder: int) | TrashCrumb

  datatype Crumb = Crumb(id: CrumbId, name: string)

  const RootEntry: Crumb := Crumb(RootCrumb, "Root Hub")
  const TrashEntry: Crumb := Crumb(TrashCrumb, "Trash Archive")

  /** The folder an entry stands for (`folder.id` as currentFolderId). */
  function FolderOf(c: CrumbId): Option<int>
  {
    if c.FolderCrumb? then Some(c.folder) else None
  }

  datatype ItemKind = File | Folder

  /** An item as the handlers receive it: its id and its type. */
  datatype ItemRef = ItemRef(id: int, kind: ItemKind)

  function KindText(k: ItemKind): string
  {
    if k == File then "file" else "folder"
  }

  /** `${currentFolderId || ''}`: null and the id 0 are both written as nothing. */
  function FolderParam(folder: Option<int>): (p: string)
    ensures p == "" <==> folder.None? || folder.value == 0
  {
    match folder
    case None => ""
    case Some(id) => if id == 0 then "" else IntToDecimal(id)
  }

  /** The three GETs of one `loadFiles`: the folders and the files of the
      current folder (of the trash in trash view) and every file, for the
      storage meter. */
  function LoadEndpoints(folder: Option<int>, trash: bool): (e: seq<string>)
    ensures |e| == 3 && e[2] == "files.php?all=true"
    ensures e[0] == "folders.php?parent_id=" + FolderParam(folder) + (if trash then "&trash=true" else "")
    ensures e[1] == "files.php?folder_id=" + FolderParam(folder) + (if trash then "&trash=true" else "")
  {
    var trashParam := if trash then "&trash=true" else "";
    ["folders.php?parent_id=" + FolderParam(folder) + trashParam,
     "files.php?folder_id=" + FolderParam(folder) + trashParam,
     "files.php?all=true"]
  }

  /** `${total} ITEM${total > 1 ? 'S' : ''}` */
  function SelectionLabel(n: nat): string
  {
    NatToDecimal(n) + " ITEM" + (if n > 1 then "S" else "")
  }

  /** The label starts with the count, which parseInt reads back, and is
      plural exactly when the count is above one. */
  lemma SelectionLabelMeaning(n: nat)
    ensures ParseInt(SelectionLabel(n)) == Some(n)
    ensures SelectionLabel(n)[|SelectionLabel(n)| - 1] == 'S' <==> n > 1
  {
    var rest := " ITEM" + (if n > 1 then "S" else "");
    assert SelectionLabel(n) == NatToDecimal(n) + rest;
    ParseIntOfDecimal(n, rest);
  }

  /** The ids of the cards of one kind. */
  function CardIds(cards: seq<ItemRef>, kind: ItemKind): set<int>
  {
    if cards == [] then {}
    else
      var last := cards[|cards| - 1];
      CardIds(cards[..|cards| - 1], kind) + (if last.kind == kind then {last.id} else {})
  }

  lemma CardIdsNext(cards: seq<ItemRef>, i: nat)
    requires i < |cards|
    ensures CardIds(cards[..i + 1], cards[i].kind) == CardIds(cards[..i], cards[i].kind) + {cards[i].id}
    ensures forall k :: k != cards[i].kind ==> CardIds(cards[..i + 1], k) == CardIds(cards[..i], k)
  {
    assert cards[..i + 1][..i] == cards[..i];
  }

  /** A selection after the ids have been ticked (added) or cleared (removed). */
  function Toggled(selection: set<int>, ids: set<int>, checked: bool): set<int>
  {
    if checked then selection + ids else selection - ids
  }

  lemma ToggledNext(selection: set<int>, ids: set<int>, id: int, checked: bool)
    ensures Toggled(Toggled(selection, ids, checked), {id}, checked) == Toggled(selection, ids + {id}, checked)
  {
  }

  /** The `forEach` of `toggleSelectAll` over the cards: each card's id is
      added to (or deleted from) the set of its kind. */
  method ToggleCards(files0: set<int>, folders0: set<int>, checked: bool, cards: seq<ItemRef>)
    returns (files: set<int>, folders: set<int>)
    ensures files == Toggled(files0, CardIds(cards, File), checked)
    ensures folders == Toggled(folders0, CardIds(cards, Folder), checked)
  {
    files, folders := files0, folders0;
    var i := 0;
    while i < |cards|
      invariant 0 <= i <= |cards|
      invariant files == Toggled(files0, CardIds(cards[..i], File), checked)
      invariant folders == Toggled(folders0, CardIds(cards[..i], Folder), checked)
    {
      var card := cards[i];
      CardIdsNext(cards, i);
      if card.kind == File {
        ToggledNext(files0, CardIds(cards[..i], File), card.id, checked);
        files := Toggled(files, {card.id}, checked);
      } else {
        ToggledNext(folders0, CardIds(cards[..i], Folder), card.id, checked);
        folders := Toggled(folders, {card.id}, checked);
      }
      i := i + 1;
    }
    assert cards[..i] == cards;
  }

  /** `check ? check.checked : isTrashItem`: in the trash the box is hidden
      and ticked, so a bulk delete there is always permanent; elsewhere it
      is whatever the user left ticked, and false without a box. */
  function PermanentFlag(isTrash: bool, ticked: Option<bool>): (permanent: bool)
    ensures isTrash ==> permanent
    ensures !isTrash ==> (permanent <==> ticked == Some(true))
  {
    if isTrash then true
    else match ticked
      case None => false
      case Some(b) => b
  }

  /** The question the bulk-delete dialog asks, or None when nothing is
      selected and no dialog opens. */
  function BulkDeletePrompt(total: nat, isTrash: bool): (q: Option<string>)
    ensures q.None? <==> total == 0
  {
    if total == 0 then None
    else if isTrash then Some("Permanently eliminate " + NatToDecimal(total) + " item(s) from the archive?")
    else Some("Move " + NatToDecimal(total) + " item(s) to the retrieval queue (Trash)?")
  }

  /** One DELETE of a bulk delete: files.php with `file_ids` or folders.php
      with `folder_ids`, and the `permanent` flag. */
  datatype DeleteRequest = DeleteRequest(endpoint: string, ids: set<int>, permanent: bool)

  datatype BulkOutcome =
    | NotStarted                         // nothing selected, no dialog, or not confirmed
    | Wiped                              // both requests returned: "Security wipe complete."
    | WipeFailed(message: Option<string>) // a request threw: the error toast (None: the engine's text)

  /** The DELETEs a confirmed bulk delete sends: the files request first,
      for a non-empty file selection, then the folders request, for a
      non-empty folder selection, unless the files request threw. */
  function BulkDeletes(files: set<int>, folders: set<int>, permanent: bool, filesReply: Api.ApiResult): seq<DeleteRequest>
  {
    (if files != {} then [DeleteRequest("files.php", files, permanent)] else [])
    + (if folders != {} && (files == {} || !filesReply.Failed?)
       then [DeleteRequest("folders.php", folders, permanent)] else [])
  }

  /** The first request that throws decides the error toast; without one
      the wipe is complete. */
  function BulkOutcomeOf(files: set<int>, folders: set<int>,
                         filesReply: Api.ApiResult, foldersReply: Api.ApiResult): BulkOutcome
  {
    if files != {} && filesReply.Failed? then WipeFailed(Api.Message(filesReply.error))
    else if folders != {} && foldersReply.Failed? then WipeFailed(Api.Message(foldersReply.error))
    else Wiped
  }

  /** A files request is sent exactly for a non-empty file selection and a
      folders request exactly for a non-empty folder selection when the
      files request did not throw; each carries its whole set and the
      permanent flag; the files request comes first. */
  lemma {:induction false} BulkDeletesShape(files: set<int>, folders: set<int>, permanent: bool, filesReply: Api.ApiResult)
    ensures var ds := BulkDeletes(files, folders, permanent, filesReply);
      && |ds| <= 2
      && ((exists d :: d in ds && d.endpoint == "files.php") <==> files != {})
      && ((exists d :: d in ds && d.endpoint == "folders.php") <==>
            folders != {} && (files == {} || !filesReply.Failed?))
      && (forall d :: d in ds ==> d.permanent == permanent)
      && (forall d :: d in ds && d.endpoint == "files.php" ==> d.ids == files)
      && (forall d :: d in ds && d.endpoint == "folders.php" ==> d.ids == folders)
      && (|ds| == 2 ==> ds[0].endpoint == "files.php")
  {
    var ds := BulkDeletes(files, folders, permanent, filesReply);
    if files != {} {
      assert ds[0] == DeleteRequest("files.php", files, permanent);
    }
    if folders != {} && (files == {} || !filesReply.Failed?) {
      assert ds[|ds| - 1] == DeleteRequest("folders.php", folders, permanent);
    }
  }

  /** The wipe completes exactly when no request that is sent throws; an
      error toast carries the message of the request that threw. */
  lemma BulkOutcomeMeaning(files: set<int>, folders: set<int>, permanent: bool,
                           filesReply: Api.ApiResult, foldersReply: Api.ApiResult)
    ensures var ds := BulkDeletes(files, folders, permanent, filesReply);
      BulkOutcomeOf(files, folders, filesReply, foldersReply) == Wiped <==>
        (forall d :: d in ds ==> !(if d.endpoint == "files.php" then filesReply else foldersReply).Failed?)
  {
    var ds := BulkDeletes(files, folders, permanent, filesReply);
    if files != {} {
      assert ds[0] == DeleteRequest("files.php", files, permanent);
    }
    if folders != {} && (files == {} || !filesReply.Failed?) {
      assert ds[|ds| - 1] == DeleteRequest("folders.php", folders, permanent);
    }
  }

  /** What the share dialog's form holds when its button is pressed; the
      note and password fields may be absent from the page. */
  datatype ShareForm = ShareForm(selected: string, customValue: string, unit: string,
                                 password: Option<string>, note: Option<string>)

  datatype ShareAttempt =
    | NoItemSelected   // "No item selected to share."
    | DurationRejected // "Please enter a valid duration.", no request
    | Sent(request: Json, outcome: Sharing.ShareOutcome)

  function OrEmpty(field: Option<string>): string
  {
    if field.Some? then field.value else ""
  }

  class Dashboard {
    var currentFolderId: Option<int>
    var breadcrumbPath: seq<Crumb>
    var isTrashView: bool
    var selectedFiles: set<int>
    var selectedFolders: set<int>
    var currentShareItem: Option<ItemRef>
    var currentRenameItem: Option<ItemRef>
    var bulkBarShown: bool     // #bulkActions is displayed
    var countText: string      // #selectedCountText
    var selectAllChecked: bool // #selectAllItems
    var requests: seq<string>  // every GET endpoint loadFiles asked for, in order

    /** The navigation state: the path is never empty; in trash view it is
        the single trash entry and no folder is current; otherwise it starts
        at the root, holds no trash entry, and the current folder is that of
        its last entry. */
    predicate Navigation()
      reads this
    {
      |breadcrumbPath| > 0
      && (isTrashView ==> breadcrumbPath == [TrashEntry] && currentFolderId == None)
      && (!isTrashView ==>
            breadcrumbPath[0] == RootEntry
            && currentFolderId == FolderOf(breadcrumbPath[|breadcrumbPath| - 1].id)
            && forall i :: 0 <= i < |breadcrumbPath| ==> breadcrumbPath[i].id != TrashCrumb)
    }

    function Total(): nat
      reads this
    {
      |selectedFiles| + |selectedFolders|
    }

    /** The selection as the page shows it: the bulk bar exactly when
        something is selected, then with the count label; with nothing
        selected the select-all box is clear. */
    predicate SelectionShown()
      reads this
    {
      (bulkBarShown <==> Total() > 0)
      && (Total() > 0 ==> countText == SelectionLabel(Total()))
      && (Total() == 0 ==> !selectAllChecked)
    }

    predicate Valid()
      reads this
    {
      Navigation() && SelectionShown()
    }

    /** The state when the dashboard script starts. */
    constructor ()
      ensures Valid()
      ensures currentFolderId == None && breadcrumbPath == [RootEntry] && !isTrashView
      ensures selectedFiles == {} && selectedFolders == {}
      ensures currentShareItem == None && currentRenameItem == None
      ensures requests == []
    {
      currentFolderId := None;
      breadcrumbPath := [RootEntry];
      isTrashView := false;
      selectedFiles := {};
      selectedFolders := {};
      currentShareItem := None;
      currentRenameItem := None;
      bulkBarShown := false;
      countText := "";
      selectAllChecked := false;
      requests := [];
    }

    /** `updateSelectionUI()` */
    method UpdateSelectionUI()
      modifies this
      ensures SelectionShown() && (old(Navigation()) ==> Valid())
      ensures Total() > 0 ==> selectAllChecked == old(selectAllChecked)
      ensures Total() == 0 ==> countText == old(countText)
      ensures currentFolderId == old(currentFolderId) && breadcrumbPath == old(breadcrumbPath)
      ensures isTrashView == old(isTrashView) && requests == old(requests)
      ensures selectedFiles == old(selectedFiles) && selectedFolders == old(selectedFolders)
      ensures currentShareItem == old(currentShareItem) && currentRenameItem == old(currentRenameItem)
    {
      var total := |selectedFiles| + |selectedFolders|;
      if total > 0 {
        bulkBarShown := true;
        countText := SelectionLabel(total);
      } else {
        bulkBarShown := false;
        selectAllChecked := false;
      }
    }

    /** Replaces both selections and refreshes their display. */
    method SetSelection(files: set<int>, folders: set<int>)
      modifies this
      ensures selectedFiles == files && selectedFolders == folders
      ensures SelectionShown() && (old(Navigation()) ==> Valid())
      ensures currentFolderId == old(currentFolderId) && breadcrumbPath == old(breadcrumbPath)
      ensures isTrashView == old(isTrashView) && requests == old(requests)
      ensures currentShareItem == old(currentShareItem) && currentRenameItem == old(currentRenameItem)
    {
      selectedFiles, selectedFolders := files, folders;
      UpdateSelectionUI();
    }

    /** `loadFiles()`: empties both selections and asks for the listing of
        the current folder. */
    method LoadFiles()
      modifies this
      ensures selectedFiles == {} && selectedFolders == {}
      ensures SelectionShown() && !bulkBarShown
      ensures requests == old(requests) + LoadEndpoints(old(currentFolderId), old(isTrashView))
      ensures currentFolderId == old(currentFolderId) && breadcrumbPath == old(breadcrumbPath)
      ensures isTrashView == old(isTrashView)
      ensures currentShareItem == old(currentShareItem) && currentRenameItem == old(currentRenameItem)
    {
      selectedFiles := {};
      selectedFolders := {};
      UpdateSelectionUI();
      requests := requests + LoadEndpoints(currentFolderId, isTrashView);
    }

    /** `showTrash()` */
    method ShowTrash()
      modifies this
      ensures Valid()
      ensures isTrashView && breadcrumbPath == [TrashEntry] && currentFolderId == None
      ensures selectedFiles == {} && selectedFolders == {}
      ensures requests == old(requests) + LoadEndpoints(None, true)
      ensures currentShareItem == old(currentShareItem) && currentRenameItem == old(currentRenameItem)
    {
      isTrashView := true;
      breadcrumbPath := [TrashEntry];
      currentFolderId := None;
      LoadFiles();
    }

    /** `navigateToRoot()` */
    method NavigateToRoot()
      modifies this
      ensures Valid()
      ensures !isTrashView && breadcrumbPath == [RootEntry] && currentFolderId == None
      ensures selectedFiles == {} && selectedFolders == {}
      ensures requests == old(requests) + LoadEndpoints(None, false)
      ensures currentShareItem == old(currentShareItem) && currentRenameItem == old(currentRenameItem)
    {
      isTrashView := false;
      breadcrumbPath := [RootEntry];
      currentFolderId := None;
      LoadFiles();
    }

    /** `navigateToFolder(id, name)`: ignored in trash view; otherwise enters
        the folder and pushes its entry. */
    method NavigateToFolder(id: int, name: string)
      requires Valid()
      modifies this
      ensures Valid()
      ensures old(isTrashView) ==> unchanged(this)
      ensures !old(isTrashView) ==>
        && !isTrashView
        && currentFolderId == Some(id)
        && breadcrumbPath == old(breadcrumbPath) + [Crumb(FolderCrumb(id), name)]
        && selectedFiles == {} && selectedFolders == {}
        && requests == old(requests) + LoadEndpoints(Some(id), false)
      ensures currentShareItem == old(currentShareItem) && currentRenameItem == old(currentRenameItem)
    {
      if isTrashView {
        return;
      }
      currentFolderId := Some(id);
      breadcrumbPath := breadcrumbPath + [Crumb(FolderCrumb(id), name)];
      LoadFiles();
    }

    /** `navigateToBreadcrumb(index)`: the trash entry shows the trash; any
        other entry truncates the path after it and makes its folder
        current. Reading `.id` of a missing entry throws, which `ok = false`
        stands for: then nothing changes. */
    method NavigateToBreadcrumb(index: int) returns (ok: bool)
      requires Valid()
      modifies this
      ensures Valid()
      ensures ok <==> 0 <= index < |old(breadcrumbPath)|
      ensures !ok ==> unchanged(this)
      ensures ok && old(breadcrumbPath)[index].id == TrashCrumb ==>
        && isTrashView && breadcrumbPath == [TrashEntry] && currentFolderId == None
        && requests == old(requests) + LoadEndpoints(None, true)
      ensures ok && old(breadcrumbPath)[index].id != TrashCrumb ==>
        && !isTrashView
        && breadcrumbPath == old(breadcrumbPath)[..index + 1]
        && currentFolderId == FolderOf(old(breadcrumbPath)[index].id)
        && requests == old(requests) + LoadEndpoints(currentFolderId, false)
      ensures ok ==> selectedFiles == {} && selectedFolders == {}
      ensures currentShareItem == old(currentShareItem) && currentRenameItem == old(currentRenameItem)
    {
      if index < 0 || index >= |breadcrumbPath| {
        return false;
      }
      var folder := breadcrumbPath[index];
      if folder.id == TrashCrumb {
        ShowTrash();
        return true;
      }
      breadcrumbPath := breadcrumbPath[..index + 1];
      currentFolderId := FolderOf(folder.id);
      isTrashView := false;
      LoadFiles();
      return true;
    }

    /** `toggleItemSelection(checkbox, id, type)`: without an enclosing card
        nothing happens; otherwise the item joins or leaves the set of its
        kind. */
    method ToggleItemSelection(cardFound: bool, checked: bool, item: ItemRef)
      requires Valid()
      modifies this
      ensures Valid()
      ensures !cardFound ==> unchanged(this)
      ensures cardFound && item.kind == File ==>
        selectedFiles == (if checked then old(selectedFiles) + {item.id} else old(selectedFiles) - {item.id})
        && selectedFolders == old(selectedFolders)
      ensures cardFound && item.kind == Folder ==>
        selectedFolders == (if checked then old(selectedFolders) + {item.id} else old(selectedFolders) - {item.id})
        && selectedFiles == old(selectedFiles)
      ensures currentFolderId == old(currentFolderId) && breadcrumbPath == old(breadcrumbPath)
      ensures isTrashView == old(isTrashView) && requests == old(requests)
      ensures currentShareItem == old(currentShareItem) && currentRenameItem == old(currentRenameItem)
    {
      if !cardFound {
        return;
      }
      assert Navigation();
      var files, folders := selectedFiles, selectedFolders;
      if checked {
        if item.kind == File {
          files := files + {item.id};
        } else {
          folders := folders + {item.id};
        }
      } else {
        if item.kind == File {
          files := files - {item.id};
        } else {
          folders := folders - {item.id};
        }
      }
      SetSelection(files, folders);
    }

    /** `toggleSelectAll(checked)` over the rendered cards: every card's item
        joins (or leaves) the set of its kind. */
    method ToggleSelectAll(checked: bool, cards: seq<ItemRef>)
      requires Valid()
      modifies this
      ensures Valid()
      ensures selectedFiles == Toggled(old(selectedFiles), CardIds(cards, File), checked)
      ensures selectedFolders == Toggled(old(selectedFolders), CardIds(cards, Folder), checked)
      ensures currentFolderId == old(currentFolderId) && breadcrumbPath == old(breadcrumbPath)
      ensures isTrashView == old(isTrashView) && requests == old(requests)
      ensures currentShareItem == old(currentShareItem) && currentRenameItem == old(currentRenameItem)
    {
      selectAllChecked := checked;
      var files, folders := ToggleCards(selectedFiles, selectedFolders, checked, cards);
      SetSelection(files, folders);
    }

    /** `bulkDelete()` up to the end of its confirmation callback.
        `confirmed` says the dialog exists and its button was pressed,
        `ticked` is the state of the permanent-delete box (None: no box),
        and the replies are what the two DELETEs return, if sent. With
        something selected and the dialog confirmed, the requests and the
        outcome are those of `BulkDeletes` and `BulkOutcomeOf`; a wipe
        empties both sets and reloads the listing. */
    method BulkDelete(confirmed: bool, ticked: Option<bool>,
                      filesReply: Api.ApiResult, foldersReply: Api.ApiResult)
      returns (deletes: seq<DeleteRequest>, outcome: BulkOutcome)
      requires Valid()
      modifies this
      ensures Valid()
      ensures !confirmed || old(Total()) == 0 ==> deletes == [] && outcome == NotStarted && unchanged(this)
      ensures confirmed && old(Total()) > 0 ==>
        && deletes == BulkDeletes(old(selectedFiles), old(selectedFolders),
                                  PermanentFlag(old(isTrashView), ticked), filesReply)
        && outcome == BulkOutcomeOf(old(selectedFiles), old(selectedFolders), filesReply, foldersReply)
      ensures outcome == Wiped ==>
        selectedFiles == {} && selectedFolders == {}
        && requests == old(requests) + LoadEndpoints(old(currentFolderId), old(isTrashView))
      ensures outcome.WipeFailed? ==>
        selectedFiles == old(selectedFiles) && selectedFolders == old(selectedFolders)
        && requests == old(requests)
      ensures currentFolderId == old(currentFolderId) && breadcrumbPath == old(breadcrumbPath)
      ensures isTrashView == old(isTrashView)
      ensures currentShareItem == old(currentShareItem) && currentRenameItem == old(currentRenameItem)
    {
      deletes := [];
      outcome := NotStarted;
      var total := |selectedFiles| + |selectedFolders|;
      if total == 0 || !confirmed {
        return;
      }
      var permanent := PermanentFlag(isTrashView, ticked);
      if |selectedFiles| > 0 {
        deletes := deletes + [DeleteRequest("files.php", selectedFiles, permanent)];
        if filesReply.Failed? {
          outcome := WipeFailed(Api.Message(filesReply.error));
          return;
        }
      }
      if |selectedFolders| > 0 {
        deletes := deletes + [DeleteRequest("folders.php", selectedFolders, permanent)];
        if foldersReply.Failed? {
          outcome := WipeFailed(Api.Message(foldersReply.error));
          return;
        }
      }
      selectedFiles := {};
      selectedFolders := {};
      UpdateSelectionUI();
      LoadFiles();
      outcome := Wiped;
    }

    /** `openShareModal(id, type)` */
    method OpenShareModal(item: ItemRef)
      modifies this
      ensures currentShareItem == Some(item)
      ensures Valid() <==> old(Valid())
      ensures currentFolderId == old(currentFolderId) && breadcrumbPath == old(breadcrumbPath)
      ensures isTrashView == old(isTrashView) && requests == old(requests)
      ensures selectedFiles == old(selectedFiles) && selectedFolders == old(selectedFolders)
      ensures currentRenameItem == old(currentRenameItem)
      ensures bulkBarShown == old(bulkBarShown) && countText == old(countText)
      ensures selectAllChecked == old(selectAllChecked)
    {
      currentShareItem := Some(item);
    }

    /** `closeShareModal()` */
    method CloseShareModal()
      modifies this
      ensures currentShareItem == None
      ensures Valid() <==> old(Valid())
      ensures currentFolderId == old(currentFolderId) && breadcrumbPath == old(breadcrumbPath)
      ensures isTrashView == old(isTrashView) && requests == old(requests)
      ensures selectedFiles == old(selectedFiles) && selectedFolders == old(selectedFolders)
      ensures currentRenameItem == old(currentRenameItem)
      ensures bulkBarShown == old(bulkBarShown) && countText == old(countText)
      ensures selectAllChecked == old(selectAllChecked)
    {
      currentShareItem := None;
    }

    /** `openRenameModal(id, currentName, type)` */
    method OpenRenameModal(item: ItemRef)
      modifies this
      ensures currentRenameItem == Some(item)
      ensures Valid() <==> old(Valid())
      ensures currentFolderId == old(currentFolderId) && breadcrumbPath == old(breadcrumbPath)
      ensures isTrashView == old(isTrashView) && requests == old(requests)
      ensures selectedFiles == old(selectedFiles) && selectedFolders == old(selectedFolders)
      ensures currentShareItem == old(currentShareItem)
      ensures bulkBarShown == old(bulkBarShown) && countText == old(countText)
      ensures selectAllChecked == old(selectAllChecked)
    {
      currentRenameItem := Some(item);
    }

    /** `closeRenameModal()` */
    method CloseRenameModal()
      modifies this
      ensures currentRenameItem == None
      ensures Valid() <==> old(Valid())
      ensures currentFolderId == old(currentFolderId) && breadcrumbPath == old(breadcrumbPath)
      ensures isTrashView == old(isTrashView) && requests == old(requests)
      ensures selectedFiles == old(selectedFiles) && selectedFolders == old(selectedFolders)
      ensures currentShareItem == old(currentShareItem)
      ensures bulkBarShown == old(bulkBarShown) && countText == old(countText)
      ensures selectAllChecked == old(selectAllChecked)
    {
      currentRenameItem := None;
    }

    /** `generateShareLink()` given the form and what the POST returns:
        nothing is sent without a current item or with a rejected custom
        duration; otherwise the request carries the item, the expiry, the
        password and the trimmed note, and the dialog shows the link or an
        error as the reply decides. */
    function GenerateShareLink(form: ShareForm, reply: Api.ApiResult): (a: ShareAttempt)
      reads this
      ensures a.NoItemSelected? <==> currentShareItem.None?
      ensures a.DurationRejected? <==>
        currentShareItem.Some?
        && Sharing.ExpiryChoice(form.selected, form.customValue, form.unit).InvalidDuration?
      ensures a.Sent? ==>
        var item := currentShareItem.value;
        var expiry := Sharing.ExpiryChoice(form.selected, form.customValue, form.unit);
        && expiry.ExpiryOk?
        && a.request == Sharing.ShareRequest(item.id, KindText(item.kind), expiry.value,
                                             OrEmpty(form.password), OrEmpty(form.note))
        && a.outcome == Sharing.ShareOutcomeFor(reply)
    {
      match currentShareItem
      case None => NoItemSelected
      case Some(item) =>
        match Sharing.ExpiryChoice(form.selected, form.customValue, form.unit)
        case InvalidDuration => DurationRejected
        case ExpiryOk(expiry) =>
          Sent(Sharing.ShareRequest(item.id, KindText(item.kind), expiry, OrEmpty(form.password), OrEmpty(form.note)),
               Sharing.ShareOutcomeFor(reply))
    }

    /** `handleUpload(files)` followed by the start button of the selection
        dialog (`started`): an empty drop does nothing; otherwise the batch
        runs in the current folder, its toasts are the start notice, one
        error per failed file and the success notice when at least one file
        was completed, and the listing is reloaded exactly then. */
    method UploadBatch(files: seq<Api.UploadFile>, scripts: seq<Upload.Script>, started: bool)
      returns (p: Upload.Progress, notices: seq<Upload.Notice>)
      requires Valid() && |files| == |scripts|
      modifies this
      ensures Valid()
      ensures var ran := started && |files| > 0;
        && (ran ==> p == Upload.Process(Upload.Batch(files, scripts, old(currentFolderId)), |files|))
        && (!ran ==> p.completed == 0 && notices == [] && unchanged(this))
        && (ran && p.completed > 0 ==>
              selectedFiles == {} && selectedFolders == {}
              && requests == old(requests) + LoadEndpoints(old(currentFolderId), old(isTrashView)))
        && (ran && p.completed == 0 ==> unchanged(this))
      ensures started && |files| > 0 ==>
        notices == [Upload.StartNotice(|files|)] + Upload.FailureNotices(files, p.runs)
                   + (if p.completed > 0 then [Upload.DoneNotice(p.completed)] else [])
      ensures currentFolderId == old(currentFolderId) && breadcrumbPath == old(breadcrumbPath)
      ensures isTrashView == old(isTrashView)
      ensures currentShareItem == old(currentShareItem) && currentRenameItem == old(currentRenameItem)
    {
      if !started || |files| == 0 {
        p := Upload.Progress([], 0, false, [], []);
        notices := [];
        return;
      }
      var refresh;
      p, notices, refresh := Upload.ProcessUploadQueue(files, scripts, currentFolderId);
      if refresh {
        LoadFiles();
      }
    }
  }

  /** Navigation keeps the path consistent: entering folders and then
      going back to entry `i` leaves exactly the first `i + 1` entries, with
      the folder of entry `i` current. */
  method EnterAndReturn(d: Dashboard, a: int, b: int)
    requires d.Valid() && !d.isTrashView
    modifies d
    ensures d.Valid()
    ensures d.breadcrumbPath == old(d.breadcrumbPath) + [Crumb(FolderCrumb(a), "A")]
    ensures d.currentFolderId == Some(a)
  {
    d.NavigateToFolder(a, "A");
    d.NavigateToFolder(b, "B");
    var ok := d.NavigateToBreadcrumb(|d.breadcrumbPath| - 2);
    assert ok;
  }
}
