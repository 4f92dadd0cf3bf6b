/** The application shell (App.tsx): which screen is shown, the receipt list
    and its persisted copy, the processing overlay and the in-flight scan. */
module App {
  import opened Types
  import HistoryView
  import ReceiptEdit

  /** What the extraction service gave back for one image: some fields, or a failure. */
  datatype Extraction = Extracted(fields: Draft) | ExtractionFailed

  /** What the FileReader produced for an upload: a data URL, or an error. */
  datatype ReadResult = Loaded(dataUrl: string) | ReadFailed

  /** The pane rendered in `<main>`. */
  datatype Pane = HistoryPane | CameraPane | EditPane(draft: Draft) | NoPane

  /** Everything rendered: the pane, and whether the "Analyzing" overlay covers it. */
  datatype Display = Display(pane: Pane, processingOverlay: bool)

  /** `{ ...data, imageUrl: payload, id: freshId }`: the scan built from an extraction. */
  function ScanOf(data: Draft, payload: string, freshId: string): (d: Draft)
    ensures d.id == Some(freshId) && d.imageUrl == Some(payload)
    ensures d.merchant == data.merchant && d.date == data.date && d.total == data.total
    ensures d.category == data.category && d.timestamp == data.timestamp
  {
    data.(imageUrl := Some(payload), id := Some(freshId))
  }

  /** The payload an upload hands to the capture handler: only for an image
      file whose read produced a non-empty data URL. */
  function UploadPayload(file: File, read: ReadResult): (p: Option<string>)
    ensures p.Some? <==> IsImageFile(file) && read.Loaded? && read.dataUrl != ""
    ensures p.Some? ==> p.value == read.dataUrl
  {
    if !IsImageFile(file) then None
    else match read
      case Loaded(s) => if s != "" then Some(s) else None
      case ReadFailed => None
  }

  /** `rs.filter(x => x.id !== id)`. */
  function RemoveById(rs: seq<Receipt>, id: string): (out: seq<Receipt>)
    ensures forall k :: 0 <= k < |out| ==> out[k].id != id
    ensures |out| <= |rs|
    ensures out == rs <==> forall k :: 0 <= k < |rs| ==> rs[k].id != id
  {
    if rs == [] then []
    else if rs[0].id != id then [rs[0]] + RemoveById(rs[1..], id)
    else RemoveById(rs[1..], id)
  }

  /** Delete removes exactly the records with the id: every other record is
      kept, as many times as it occurred. */
  lemma {:induction false} RemoveByIdExact(rs: seq<Receipt>, id: string)
    ensures forall x :: multiset(RemoveById(rs, id))[x] == if x.id == id then 0 else multiset(rs)[x]
    ensures forall x :: x in RemoveById(rs, id) <==> x in rs && x.id != id
    decreases |rs|
  {
    if rs != [] {
      RemoveByIdExact(rs[1..], id);
      assert rs == [rs[0]] + rs[1..];
      assert multiset(rs) == multiset([rs[0]]) + multiset(rs[1..]);
    }
  }

  /** Survivors keep their relative order: filtering distributes over concatenation. */
  lemma {:induction false} RemoveByIdAppend(a: seq<Receipt>, b: seq<Receipt>, id: string)
    ensures RemoveById(a + b, id) == RemoveById(a, id) + RemoveById(b, id)
    decreases |a|
  {
    if a == [] {
      assert a + b == b;
    } else {
      assert (a + b)[1..] == a[1..] + b;
      RemoveByIdAppend(a[1..], b, id);
    }
  }

  /** Deleting the id of a record just added, when no older record shares it,
      restores the previous list. */
  lemma SaveThenDeleteRestores(r: Receipt, rs: seq<Receipt>)
    requires forall k :: 0 <= k < |rs| ==> rs[k].id != r.id
    ensures RemoveById([r] + rs, r.id) == rs
  {
  }

  /** The sum of the totals of the records carrying `id`. */
  function TotalWithId(rs: seq<Receipt>, id: string): int {
    if rs == [] then 0
    else (if rs[0].id == id then rs[0].total else 0) + TotalWithId(rs[1..], id)
  }

  /** Deleting an id lowers the displayed total by exactly the amounts of the
      records removed. */
  lemma {:induction false} DeleteLowersTotal(rs: seq<Receipt>, id: string)
    ensures HistoryView.Total(RemoveById(rs, id)) == HistoryView.Total(rs) - TotalWithId(rs, id)
    decreases |rs|
  {
    if rs != [] {
      DeleteLowersTotal(rs[1..], id);
      if rs[0].id != id {
        HistoryView.TotalPrepend(rs[0], RemoveById(rs[1..], id));
      }
    }
  }

  /** The Delete button of row `i` removes the record shown in that row. */
  lemma DeleteRowRemovesIt(rs: seq<Receipt>, i: nat)
    requires i < |rs|
    ensures rs[i] !in RemoveById(rs, HistoryView.Rows(rs)[i].deleteId)
  {
  }

  /** A dropped file always passes the upload MIME gate: the gate then depends
      only on the read result. */
  lemma DropPassesUploadGate(files: seq<File>, read: ReadResult)
    requires HistoryView.DroppedFile(files).Some?
    ensures UploadPayload(HistoryView.DroppedFile(files).value, read) ==
              if read.Loaded? && read.dataUrl != "" then Some(read.dataUrl) else None
  {
  }

  /** The application state. `saved` is the `receipts` slot of localStorage;
      `pending` holds the payloads of the `handleCapture` calls still awaiting
      their extraction (the `base64` each of those closures captured). */
  class AppState {
    var activeView: View
    var receipts: seq<Receipt>
    var isProcessing: bool
    var currentScan: Option<Draft>
    var saved: seq<Receipt>
    ghost var pending: multiset<string>

    /** The slot always holds the whole current list; the edit view always
        has a scan; a scan always carries the id and image its submit copies. */
    predicate Valid()
      reads this
      ensures Valid() ==> saved == receipts
      ensures Valid() && activeView == Edit ==>
                currentScan.Some? && currentScan.value.id.Some? && currentScan.value.imageUrl.Some?
    {
      saved == receipts &&
      (activeView == Edit ==> currentScan.Some?) &&
      (currentScan.Some? ==> currentScan.value.id.Some? && currentScan.value.imageUrl.Some?)
    }

    /** The initial state, with the first run of the persist effect. */
    constructor ()
      ensures Valid()
      ensures activeView == History && receipts == [] && !isProcessing && currentScan == None
      ensures pending == multiset{}
    {
      activeView := History;
      receipts := [];
      isProcessing := false;
      currentScan := None;
      saved := [];
      pending := multiset{};
    }

    /** The mount effect: `stored` is the parsed slot, None when the slot is empty. */
    method Load(stored: Option<seq<Receipt>>)
      requires Valid()
      modifies this
      ensures Valid()
      ensures pending == old(pending)
      ensures receipts == if stored.Some? then stored.value else old(receipts)
      ensures activeView == old(activeView) && isProcessing == old(isProcessing)
      ensures currentScan == old(currentScan)
    {
      if stored.Some? {
        receipts := stored.value;
        saved := receipts;
      }
    }

    /** First half of handleCapture, before the extraction is awaited. */
    method StartCapture(payload: string)
      requires Valid()
      modifies this
      ensures Valid()
      ensures isProcessing && activeView == History
      ensures receipts == old(receipts) && currentScan == old(currentScan)
      ensures pending == old(pending) + multiset{payload}
    {
      isProcessing := true;
      activeView := History;
      pending := pending + multiset{payload};
    }

    /** Second half of handleCapture, once the extraction settles; `freshId`
        is `Date.now().toString()` at that moment. */
    method CompleteCapture(payload: string, result: Extraction, freshId: string)
      requires Valid()
      requires payload in pending
      modifies this
      ensures Valid()
      ensures pending == old(pending) - multiset{payload}
      ensures !isProcessing && receipts == old(receipts)
      ensures result.Extracted? ==>
                activeView == Edit && currentScan == Some(ScanOf(result.fields, payload, freshId))
      ensures result.ExtractionFailed? ==>
                activeView == old(activeView) && currentScan == old(currentScan)
    {
      if result.Extracted? {
        currentScan := Some(ScanOf(result.fields, payload, freshId));
        activeView := Edit;
      }
      isProcessing := false;
      pending := pending - multiset{payload};
    }

    /** handleFileUpload up to the point where the read result starts a capture;
        returns the payload the capture runs on, if one is started. */
    method UploadFile(file: File, read: ReadResult) returns (started: Option<string>)
      requires Valid()
      modifies this
      ensures Valid()
      ensures started == UploadPayload(file, read)
      ensures started.None? ==>
                activeView == old(activeView) && receipts == old(receipts) &&
                isProcessing == old(isProcessing) && currentScan == old(currentScan) &&
                pending == old(pending)
      ensures started.Some? ==>
                isProcessing && activeView == History &&
                receipts == old(receipts) && currentScan == old(currentScan) &&
                pending == old(pending) + multiset{started.value}
    {
      started := UploadPayload(file, read);
      if started.Some? {
        StartCapture(started.value);
      }
    }

    /** saveReceipt: the new record goes first, the listing is shown, the scan is dropped. */
    method SaveReceipt(r: Receipt)
      requires Valid()
      modifies this
      ensures Valid()
      ensures pending == old(pending)
      ensures |receipts| == |old(receipts)| + 1
      ensures receipts[0] == r && receipts[1..] == old(receipts)
      ensures activeView == History && currentScan == None && isProcessing == old(isProcessing)
    {
      receipts := [r] + receipts;
      saved := receipts;
      activeView := History;
      currentScan := None;
    }

    /** The HistoryView onDelete callback. */
    method Delete(id: string)
      requires Valid()
      modifies this
      ensures Valid()
      ensures pending == old(pending)
      ensures receipts == RemoveById(old(receipts), id)
      ensures activeView == old(activeView) && isProcessing == old(isProcessing)
      ensures currentScan == old(currentScan)
    {
      receipts := RemoveById(receipts, id);
      saved := receipts;
    }

    /** The camera's Cancel. */
    method CancelCamera()
      requires Valid()
      modifies this
      ensures Valid()
      ensures pending == old(pending)
      ensures activeView == History
      ensures receipts == old(receipts) && isProcessing == old(isProcessing)
      ensures currentScan == old(currentScan)
    {
      activeView := History;
    }

    /** The edit screen's Cancel: the scan is kept, only the view changes. */
    method CancelEdit()
      requires Valid()
      modifies this
      ensures Valid()
      ensures pending == old(pending)
      ensures activeView == History
      ensures receipts == old(receipts) && isProcessing == old(isProcessing)
      ensures currentScan == old(currentScan)
    {
      activeView := History;
    }

    /** The History button of the bottom bar. */
    method NavHistory()
      requires Valid()
      modifies this
      ensures Valid()
      ensures pending == old(pending)
      ensures activeView == History
      ensures receipts == old(receipts) && isProcessing == old(isProcessing)
      ensures currentScan == old(currentScan)
    {
      activeView := History;
    }

    /** The central scan button of the bottom bar. */
    method NavCamera()
      requires Valid()
      modifies this
      ensures Valid()
      ensures pending == old(pending)
      ensures activeView == Camera
      ensures receipts == old(receipts) && isProcessing == old(isProcessing)
      ensures currentScan == old(currentScan)
    {
      activeView := Camera;
    }

    /** What is rendered for the current state. */
    function Render(): (d: Display)
      reads this
      ensures d.processingOverlay == isProcessing
      ensures d.pane == HistoryPane <==> activeView == History
      ensures d.pane == CameraPane <==> activeView == Camera
      ensures d.pane.EditPane? <==> activeView == Edit && currentScan.Some?
      ensures d.pane.EditPane? ==> d.pane.draft == currentScan.value
      ensures Valid() ==> d.pane != NoPane
    {
      var pane :=
        match activeView
        case History => HistoryPane
        case Camera => CameraPane
        case Edit => if currentScan.Some? then EditPane(currentScan.value) else NoPane;
      Display(pane, isProcessing)
    }
  }

  /** Listing → camera → capture → extraction → edit (amount corrected to
      15.00) → submit → listing, from an empty store; then a restart reloads
      the persisted list. */
  method CafeRomaScenario(photo: string, captureId: string, nowIso: string, submitAt: int)
  {
    var app := new AppState();
    app.NavCamera();
    app.StartCapture(photo);
    assert app.Render() == Display(HistoryPane, true);
    var fields := Draft(None, Some("2024-03-01"), Some("Cafe Roma"), Some(1425), Some("Food & Dining"), None, None);
    app.CompleteCapture(photo, Extracted(fields), captureId);
    assert app.Render().pane.EditPane?;
    var form := new ReceiptEdit.EditForm(app.currentScan.value, nowIso);
    form.SetAmount(Some(1500));
    var r := form.Submit(submitAt);
    app.SaveReceipt(r);
    assert app.saved == [Receipt(captureId, "2024-03-01", "Cafe Roma", 1500, "Food & Dining", photo, submitAt)];
    HistoryView.TotalPrepend(r, []);
    assert HistoryView.Total(app.receipts) == 1500;

    var restarted := new AppState();
    restarted.Load(Some(app.saved));
    assert restarted.receipts == app.receipts;
  }

  /** A failed extraction leaves the store untouched, the listing shown and the
      overlay gone; a non-image upload changes nothing at all. */
  method FailureScenario(stored: seq<Receipt>, photo: string, text: File, read: ReadResult)
    requires !IsImageFile(text)
  {
    var app := new AppState();
    app.Load(Some(stored));
    app.StartCapture(photo);
    app.CompleteCapture(photo, ExtractionFailed, "1");
    assert app.receipts == stored && app.saved == stored;
    assert app.activeView == History && !app.isProcessing && app.currentScan == None;
    var started := app.UploadFile(text, read);
    assert started == None;
    assert app.receipts == stored && app.activeView == History && !app.isProcessing;
  }

  /** A second capture that settles while the edit screen is shown. The bottom
      bar stays usable under the overlay, so a second capture can start while
      the first is in flight. The first result mounts the edit form; the second
      replaces the scan while the view stays on Edit, so the mounted form keeps
      the first scan's fields but takes its id and image from the new prop. */
  method SecondCaptureDuringEdit(p1: string, p2: string, id1: string, id2: string, nowIso: string, submitAt: int)
  {
    var app := new AppState();
    app.NavCamera();
    app.StartCapture(p1);
    app.NavCamera();
    app.StartCapture(p2);
    var a := Draft(None, None, Some("Cafe Roma"), Some(1425), None, None, None);
    var b := Draft(None, None, Some("Hardware Store"), Some(8999), None, None, None);
    app.CompleteCapture(p1, Extracted(a), id1);
    var form := new ReceiptEdit.EditForm(app.currentScan.value, nowIso);
    app.CompleteCapture(p2, Extracted(b), id2);
    assert app.Render().pane == EditPane(ScanOf(b, p2, id2));
    form.SetData(app.currentScan.value);
    var r := form.Submit(submitAt);
    assert r.merchant == "Cafe Roma" && r.total == 1425;
    assert r.id == id2 && r.imageUrl == p2;
  }

  /** The same mixed record reached from two uploads: both reads finish before
      either upload's capture settles, and no overlay is up until the first
      read has loaded. The first extraction mounts the form; the second
      replaces the scan under it. */
  method TwoUploadsDuringEdit(f1: File, f2: File, u1: string, u2: string, id1: string, id2: string,
                              nowIso: string, submitAt: int)
    requires IsImageFile(f1) && IsImageFile(f2) && u1 != "" && u2 != ""
  {
    var app := new AppState();
    var s1 := app.UploadFile(f1, Loaded(u1));
    var s2 := app.UploadFile(f2, Loaded(u2));
    assert s1 == Some(u1) && s2 == Some(u2);
    var a := Draft(None, None, Some("Cafe Roma"), Some(1425), None, None, None);
    var b := Draft(None, None, Some("Hardware Store"), Some(8999), None, None, None);
    app.CompleteCapture(u1, Extracted(a), id1);
    var form := new ReceiptEdit.EditForm(app.currentScan.value, nowIso);
    app.CompleteCapture(u2, Extracted(b), id2);
    assert app.activeView == Edit && !app.isProcessing;
    form.SetData(app.currentScan.value);
    var r := form.Submit(submitAt);
    assert r.merchant == "Cafe Roma" && r.total == 1425;
    assert r.id == id2 && r.imageUrl == u2;
  }
}
