/**
 The application shell: one state record, changed only by the handlers the
 screens call.  The steps run LOGIN -> MAIN_APP -> UPLOAD -> PROCESSING ->
 VERIFICATION -> TAX_ANALYSIS -> FINAL_PREVIEW -> MAIN_APP, and Cancel returns
 from any scanning step.  Storage and the saved theme preference are part of
 the world the handlers act on.
 */
module Workflow {
  import opened Wrappers
  import opened Types
  import opened Tax
  import opened Storage
  import Editor
  import Pipeline
  import Credentials

  datatype Theme = Light | Dark

  datatype AppState = AppState(
    user: Option<User>,
    history: seq<KhataRecord>,
    step: AppStep,
    view: AppView,
    pipelineStage: PipelineStage,
    currentImage: Option<string>,
    currentMimeType: string,
    extractedItems: seq<KhataItem>,
    finalTaxDetails: Option<TaxDetails>,
    theme: Theme)

  /** The state of one scan in progress is absent. */
  predicate InProgressCleared(st: AppState) {
    && st.pipelineStage == Idle
    && st.currentImage.None?
    && st.extractedItems == []
    && st.finalTaxDetails.None?
  }

  /** The two states hold the same scan: stage, preview, media type, rows and breakdown. */
  predicate SameScan(a: AppState, b: AppState) {
    && a.pipelineStage == b.pipelineStage
    && a.currentImage == b.currentImage
    && a.currentMimeType == b.currentMimeType
    && a.extractedItems == b.extractedItems
    && a.finalTaxDetails == b.finalTaxDetails
  }

  /** The two states agree on everything except the user and the loaded history. */
  predicate SameScreens(a: AppState, b: AppState) {
    && a.step == b.step
    && a.view == b.view
    && a.pipelineStage == b.pipelineStage
    && a.currentImage == b.currentImage
    && a.currentMimeType == b.currentMimeType
    && a.extractedItems == b.extractedItems
    && a.finalTaxDetails == b.finalTaxDetails
    && a.theme == b.theme
  }

  /** The first theme: a saved "dark", or no saved preference and a system that prefers dark. */
  function InitialTheme(saved: Option<string>, prefersDark: bool): (t: Theme)
    ensures saved == Some("dark") ==> t == Dark
    ensures saved.Some? && saved.value != "" && saved.value != "dark" ==> t == Light
    ensures saved.None? || saved == Some("") ==> (t == Dark <==> prefersDark)
  {
    if saved == Some("dark") || ((saved.None? || saved == Some("")) && prefersDark) then Dark else Light
  }

  /** What toggleTheme writes under the 'theme' key. */
  function ThemeName(t: Theme): string {
    match t
    case Light => "light"
    case Dark => "dark"
  }

  function ToggleTheme(t: Theme): (r: Theme)
    ensures r != t
  {
    match t
    case Light => Dark
    case Dark => Light
  }

  lemma ToggleThemeTwice(t: Theme)
    ensures ToggleTheme(ToggleTheme(t)) == t
  {
  }

  /** The preference toggleTheme saves is the theme the next start-up picks, whatever the system prefers. */
  lemma SavedThemeIsRestored(t: Theme, prefersDark: bool)
    ensures InitialTheme(Some(ThemeName(ToggleTheme(t))), prefersDark) == ToggleTheme(t)
  {
  }

  /** The state before anyone logs in. */
  function Initial(saved: Option<string>, prefersDark: bool): (st: AppState)
    ensures st.user.None? && st.history == [] && st.step == Login && InProgressCleared(st)
  {
    AppState(None, [], Login, DashboardView, Idle, None, "image/jpeg", [], None, InitialTheme(saved, prefersDark))
  }

  /** Upper-cases one character; only ASCII letters are mapped. */
  function UpperAscii(c: char): char {
    if 'a' <= c <= 'z' then (c as int - 32) as char else c
  }

  /** The name shown for a user: the username with its first character upper-cased. */
  function DisplayName(username: string): (name: string)
    ensures |name| == |username|
    ensures |username| > 0 ==> name[0] == UpperAscii(username[0]) && name[1..] == username[1..]
  {
    if |username| == 0 then "" else [UpperAscii(username[0])] + username[1..]
  }

  /** handleLogin, followed by the effect that loads the user's history when the user changes. */
  function HandleLogin(st: AppState, username: string, store: Store): (r: AppState)
    ensures r.user == Some(User(username, DisplayName(username), General))
    ensures r.step == MainApp && r.view == DashboardView
    ensures r.history == GetRecords(store, username)
    ensures r.theme == st.theme && r.extractedItems == st.extractedItems && r.finalTaxDetails == st.finalTaxDetails
  {
    st.(user := Some(User(username, DisplayName(username), General)),
        step := MainApp,
        view := DashboardView,
        history := GetRecords(store, username))
  }

  /** In-progress scan state dropped; everything else kept. */
  function ClearInProgress(st: AppState): (r: AppState)
    ensures InProgressCleared(r)
    ensures r.user == st.user && r.history == st.history && r.step == st.step && r.view == st.view
    ensures r.theme == st.theme && r.currentMimeType == st.currentMimeType
  {
    st.(pipelineStage := Idle, currentImage := None, extractedItems := [], finalTaxDetails := None)
  }

  /** resetApp (the Cancel and "Retake Photo" buttons). */
  function ResetApp(st: AppState): (r: AppState)
    ensures InProgressCleared(r)
    ensures st.user.Some? ==> r.step == MainApp && r.view == DashboardView
    ensures st.user.None? ==> r.step == Login && r.view == st.view
    ensures r.user == st.user && r.history == st.history && r.theme == st.theme
  {
    var cleared := ClearInProgress(st);
    if st.user.Some? then cleared.(step := MainApp, view := DashboardView) else cleared.(step := Login)
  }

  /**
   handleLogout.  Its call to resetApp still sees the user of the render the
   click came from, so the view is also reset to the dashboard before the step
   is forced to LOGIN.
   */
  function HandleLogout(st: AppState): (r: AppState)
    ensures r.user.None? && r.history == [] && r.step == Login && InProgressCleared(r)
    ensures st.user.Some? ==> r.view == DashboardView
    ensures r.theme == st.theme
  {
    ResetApp(st).(user := None, history := [], step := Login)
  }

  /**
   handleShopTypeChange: a new user object with the chosen shop type, which
   also re-runs the history-loading effect.  Logged out, nothing happens.
   */
  function HandleShopTypeChange(st: AppState, shopType: ShopType, store: Store): (r: AppState)
    ensures st.user.None? ==> r == st
    ensures st.user.Some? ==> r.user == Some(st.user.value.(shopType := shopType))
    ensures st.user.Some? ==> r.history == GetRecords(store, st.user.value.username)
    ensures SameScreens(r, st)
  {
    match st.user
    case None => st
    case Some(u) => st.(user := Some(u.(shopType := shopType)), history := GetRecords(store, u.username))
  }

  /** The dashboard's "New Khata Entry" button. */
  function NewScan(st: AppState): (r: AppState)
    ensures r.step == Upload && r.view == st.view
    ensures r.user == st.user && r.history == st.history && r.theme == st.theme
    ensures SameScan(r, st)
    ensures InProgressCleared(st) ==> InProgressCleared(r)
  {
    st.(step := Upload)
  }

  /** The sidebar's view switch. */
  function ChangeView(st: AppState, view: AppView): (r: AppState)
    ensures r.view == view && r.step == st.step
    ensures r.user == st.user && r.history == st.history && r.theme == st.theme
    ensures SameScan(r, st)
    ensures InProgressCleared(st) ==> InProgressCleared(r)
  {
    st.(view := view)
  }

  /** handleImageSelected before the pipeline starts: remember the preview and media type. */
  function ImageSelected(st: AppState, previewUrl: string, mimeType: string): (r: AppState)
    ensures r.currentImage == Some(previewUrl) && r.currentMimeType == mimeType
    ensures r.step == st.step && r.pipelineStage == st.pipelineStage && r.extractedItems == st.extractedItems
    ensures r.user == st.user && r.history == st.history && r.finalTaxDetails == st.finalTaxDetails
    ensures r.view == st.view && r.theme == st.theme
  {
    st.(currentImage := Some(previewUrl), currentMimeType := mimeType)
  }

  /**
   The state updates runPipelineSimulation makes, in program order.  The
   waits between them are not modelled; each update applies to whatever the
   state is when it runs.
   */
  datatype PipelineEffect =
    | EnterProcessing
    | ShowStage(stage: PipelineStage)
    | StoreExtraction(items: seq<KhataItem>)
    | ShowVerification

  function ApplyEffect(st: AppState, e: PipelineEffect): AppState {
    match e
    case EnterProcessing => st.(step := Processing)
    case ShowStage(stage) => st.(pipelineStage := stage)
    case StoreExtraction(items) => st.(extractedItems := items)
    case ShowVerification => st.(step := Verification)
  }

  /** The effects applied in order. */
  function ApplyEffects(st: AppState, es: seq<PipelineEffect>): AppState
    decreases |es|
  {
    if |es| == 0 then st else ApplyEffect(ApplyEffects(st, es[..|es| - 1]), es[|es| - 1])
  }

  /** The shop type the extraction call receives: the user's, or General with no user. */
  function ExtractionShopType(st: AppState): (t: ShopType)
    ensures st.user.Some? ==> t == st.user.value.shopType
    ensures st.user.None? ==> t == General
  {
    match st.user
    case Some(u) => u.shopType
    case None => General
  }

  /** runPipelineSimulation's updates, given the rows the extraction call returned. */
  function PipelineEffects(data: seq<KhataItem>): (es: seq<PipelineEffect>)
    ensures |es| == 9 && es[0] == EnterProcessing && es[|es| - 1] == ShowVerification
    ensures forall k :: 0 <= k < |es| ==> (es[k].StoreExtraction? <==> k == 5)
    ensures es[5] == StoreExtraction(data)
    ensures forall k :: 0 < k < |es| - 1 ==> es[k].ShowStage? || es[k].StoreExtraction?
  {
    [EnterProcessing,
     ShowStage(YoloDetection),
     ShowStage(Cropping),
     ShowStage(TrocrRecognition),
     ShowStage(LlmStructuring),
     StoreExtraction(data),
     ShowStage(DbFilling),
     ShowStage(Complete),
     ShowVerification]
  }

  /** The stages shown by a list of effects, in order. */
  function ShownStages(es: seq<PipelineEffect>): (stages: seq<PipelineStage>)
    ensures |stages| <= |es|
    decreases |es|
  {
    if |es| == 0 then []
    else (if es[0].ShowStage? then [es[0].stage] else []) + ShownStages(es[1..])
  }

  lemma ShownStagesCons(e: PipelineEffect, es: seq<PipelineEffect>)
    ensures ShownStages([e] + es) == (if e.ShowStage? then [e.stage] else []) + ShownStages(es)
  {
    assert ([e] + es)[1..] == es;
  }

  lemma {:induction false} ShownStagesAppend(a: seq<PipelineEffect>, b: seq<PipelineEffect>)
    ensures ShownStages(a + b) == ShownStages(a) + ShownStages(b)
    decreases |a|
  {
    if |a| == 0 {
      assert a + b == b;
    } else {
      assert (a + b)[0] == a[0];
      assert (a + b)[1..] == a[1..] + b;
      ShownStagesAppend(a[1..], b);
    }
  }

  /** The updates before the extraction call. */
  function EarlyEffects(): seq<PipelineEffect> {
    [EnterProcessing, ShowStage(YoloDetection), ShowStage(Cropping), ShowStage(TrocrRecognition), ShowStage(LlmStructuring)]
  }

  /** The updates from storing the extracted rows on. */
  function LateEffects(data: seq<KhataItem>): seq<PipelineEffect> {
    [StoreExtraction(data), ShowStage(DbFilling), ShowStage(Complete), ShowVerification]
  }

  lemma ShownEarlyStages()
    ensures ShownStages(EarlyEffects()) == [YoloDetection, Cropping, TrocrRecognition, LlmStructuring]
  {
    var e4 := [ShowStage(LlmStructuring)];
    var e3 := [ShowStage(TrocrRecognition)] + e4;
    var e2 := [ShowStage(Cropping)] + e3;
    var e1 := [ShowStage(YoloDetection)] + e2;
    assert EarlyEffects() == [EnterProcessing] + e1;
    assert e4 == [ShowStage(LlmStructuring)] + [];
    ShownStagesCons(ShowStage(LlmStructuring), []);
    ShownStagesCons(ShowStage(TrocrRecognition), e4);
    ShownStagesCons(ShowStage(Cropping), e3);
    ShownStagesCons(ShowStage(YoloDetection), e2);
    ShownStagesCons(EnterProcessing, e1);
  }

  lemma ShownLateStages(data: seq<KhataItem>)
    ensures ShownStages(LateEffects(data)) == [DbFilling, Complete]
  {
    var e3 := [ShowVerification];
    var e2 := [ShowStage(Complete)] + e3;
    var e1 := [ShowStage(DbFilling)] + e2;
    assert LateEffects(data) == [StoreExtraction(data)] + e1;
    assert e3 == [ShowVerification] + [];
    ShownStagesCons(ShowVerification, []);
    ShownStagesCons(ShowStage(Complete), e3);
    ShownStagesCons(ShowStage(DbFilling), e2);
    ShownStagesCons(StoreExtraction(data), e1);
  }

  /** The simulation shows the five steps and then COMPLETE, in the order the stages are declared. */
  lemma ShownStagesOfPipeline(data: seq<KhataItem>)
    ensures ShownStages(PipelineEffects(data)) == Pipeline.StageOrder[1..]
  {
    assert PipelineEffects(data) == EarlyEffects() + LateEffects(data);
    ShownStagesAppend(EarlyEffects(), LateEffects(data));
    ShownEarlyStages();
    ShownLateStages(data);
  }

  /** Each stage the simulation shows comes strictly after the one before it. */
  lemma PipelineStagesInOrder(data: seq<KhataItem>)
    ensures var stages := ShownStages(PipelineEffects(data));
      forall i, j :: 0 <= i < j < |stages| ==> Pipeline.IndexOf(stages[i]) < Pipeline.IndexOf(stages[j])
  {
    ShownStagesOfPipeline(data);
    var stages := Pipeline.StageOrder[1..];
    forall i, j | 0 <= i < j < |stages|
      ensures Pipeline.IndexOf(stages[i]) < Pipeline.IndexOf(stages[j])
    {
      Pipeline.IndexOfPosition(i + 1);
      Pipeline.IndexOfPosition(j + 1);
    }
  }

  /** The extraction result is stored only while LLM_STRUCTURING is the stage shown. */
  lemma ExtractionStoredDuringStructuring(data: seq<KhataItem>)
    ensures var es := PipelineEffects(data);
      forall k :: 0 <= k < |es| && es[k].StoreExtraction? ==> k > 0 && es[k - 1] == ShowStage(LlmStructuring)
  {
  }

  /** If the last effect storing rows stores `data`, the rows end up as `data`. */
  lemma {:induction false} LastStoreWins(st: AppState, es: seq<PipelineEffect>, k: nat, data: seq<KhataItem>)
    requires k < |es| && es[k] == StoreExtraction(data)
    requires forall j :: k < j < |es| ==> !es[j].StoreExtraction?
    ensures ApplyEffects(st, es).extractedItems == data
    decreases |es|
  {
    if k < |es| - 1 {
      LastStoreWins(st, es[..|es| - 1], k, data);
    }
  }

  /** If the last effect showing a stage shows `stage`, that stage is the one shown at the end. */
  lemma {:induction false} LastStageWins(st: AppState, es: seq<PipelineEffect>, k: nat, stage: PipelineStage)
    requires k < |es| && es[k] == ShowStage(stage)
    requires forall j :: k < j < |es| ==> !es[j].ShowStage?
    ensures ApplyEffects(st, es).pipelineStage == stage
    decreases |es|
  {
    if k < |es| - 1 {
      LastStageWins(st, es[..|es| - 1], k, stage);
    }
  }

  /** Effects never touch the user, the history, the view, the image, the tax or the theme. */
  lemma {:induction false} EffectsKeepOtherFields(st: AppState, es: seq<PipelineEffect>)
    ensures var r := ApplyEffects(st, es);
      && r.user == st.user && r.history == st.history && r.view == st.view
      && r.currentImage == st.currentImage && r.currentMimeType == st.currentMimeType
      && r.finalTaxDetails == st.finalTaxDetails && r.theme == st.theme
    decreases |es|
  {
    if |es| > 0 {
      EffectsKeepOtherFields(st, es[..|es| - 1]);
    }
  }

  /**
   The whole uninterrupted simulation: it ends in VERIFICATION at COMPLETE
   holding exactly the rows extracted for the user's shop type.
   */
  function RunPipeline(st: AppState, extract: ShopType -> seq<KhataItem>): (r: AppState)
    ensures r.step == Verification && r.pipelineStage == Complete
    ensures r.extractedItems == extract(ExtractionShopType(st))
    ensures r.user == st.user && r.history == st.history && r.view == st.view && r.theme == st.theme
    ensures r.currentImage == st.currentImage && r.finalTaxDetails == st.finalTaxDetails
  {
    var data := extract(ExtractionShopType(st));
    var es := PipelineEffects(data);
    LastStoreWins(st, es, 5, data);
    EffectsKeepOtherFields(st, es);
    LastStageWins(st, es, 7, Complete);
    ApplyEffects(st, es)
  }

  /** handleVerificationConfirm: the verified rows replace the extracted ones. */
  function HandleVerificationConfirm(st: AppState, verified: seq<KhataItem>): (r: AppState)
    ensures r.extractedItems == verified && r.step == TaxAnalysis
    ensures r.user == st.user && r.history == st.history && r.currentImage == st.currentImage
    ensures r.pipelineStage == st.pipelineStage && r.finalTaxDetails == st.finalTaxDetails
  {
    st.(extractedItems := verified, step := TaxAnalysis)
  }

  /** handleTaxFinish: the accepted breakdown is kept for the preview. */
  function HandleTaxFinish(st: AppState, details: TaxDetails): (r: AppState)
    ensures r.finalTaxDetails == Some(details) && r.step == FinalPreview
    ensures r.extractedItems == st.extractedItems && r.user == st.user && r.history == st.history
    ensures r.currentImage == st.currentImage && r.pipelineStage == st.pipelineStage
  {
    st.(finalTaxDetails := Some(details), step := FinalPreview)
  }

  /** Everything the handlers read and write outside the state record. */
  datatype World = World(app: AppState, store: Store, savedTheme: Option<string>)

  /** The record finishAndSave builds from the current rows and breakdown. */
  function NewRecord(st: AppState, recordId: string, timestamp: string): KhataRecord
    requires st.finalTaxDetails.Some?
  {
    KhataRecord(recordId, timestamp, st.extractedItems, st.finalTaxDetails.value)
  }

  /**
   finishAndSave.  With a user and a breakdown it saves a new record and shows
   what the save returned; in every case it then clears the scan and returns
   to the dashboard.
   */
  function FinishAndSave(w: World, recordId: string, timestamp: string, writeOk: bool): (r: World)
    ensures InProgressCleared(r.app) && r.app.step == MainApp && r.app.view == DashboardView
    ensures r.app.user == w.app.user && r.app.theme == w.app.theme && r.savedTheme == w.savedTheme
    ensures w.app.user.Some? && w.app.finalTaxDetails.Some? && writeOk ==>
      var username := w.app.user.value.username;
      && r.app.history == [NewRecord(w.app, recordId, timestamp)] + GetRecords(w.store, username)
      && GetRecords(r.store, username) == r.app.history
    ensures w.app.user.Some? && w.app.finalTaxDetails.Some? && !writeOk ==> r.app.history == [] && r.store == w.store
    ensures w.app.user.None? || w.app.finalTaxDetails.None? ==> r.app.history == w.app.history && r.store == w.store
  {
    var st := w.app;
    if st.user.Some? && st.finalTaxDetails.Some? then
      var saved := SaveRecord(w.store, st.user.value.username, NewRecord(st, recordId, timestamp), writeOk);
      var app := ClearInProgress(st.(history := saved.records)).(step := MainApp, view := DashboardView);
      World(app, saved.store, w.savedTheme)
    else
      World(ClearInProgress(st).(step := MainApp, view := DashboardView), w.store, w.savedTheme)
  }

  /** What the user can do on a screen. */
  datatype Event =
    | ThemeToggled
    | LoggedIn(username: string)
    | LoggedOut
    | ViewChosen(view: AppView)
    | ShopTypeChosen(shopType: ShopType)
    | NewScanRequested
    | ImageChosen(previewUrl: string, mimeType: string, extract: ShopType -> seq<KhataItem>)
    | Cancelled
    | Confirmed(edits: seq<Editor.Action>)
    | TaxAccepted
    | Saved(recordId: string, timestamp: string, writeOk: bool)

  /** Which controls the current screen renders. */
  predicate Enabled(st: AppState, e: Event) {
    match e
    case ThemeToggled => true
    case LoggedIn(username) => st.step == Login && username != ""
    case LoggedOut => st.step == MainApp && st.user.Some?
    case ViewChosen(_) => st.step == MainApp && st.user.Some?
    case ShopTypeChosen(_) => st.step == MainApp && st.user.Some? && st.view == SettingsView
    case NewScanRequested => st.step == MainApp && st.user.Some? && st.view == DashboardView
    case ImageChosen(_, _, _) => st.step == Upload
    case Cancelled => st.step != Login && st.step != MainApp
    case Confirmed(_) => st.step == Verification
    case TaxAccepted => st.step == TaxAnalysis
    case Saved(_, _, _) => st.step == FinalPreview && st.finalTaxDetails.Some?
  }

  /**
   One handler run to completion.  The editor's table starts as the extracted
   rows and Confirm hands over the edited table; the tax screen hands over the
   breakdown it computed from the rows it was shown.
   */
  function Next(w: World, e: Event): World {
    var st := w.app;
    match e
    case ThemeToggled =>
      var t := ToggleTheme(st.theme);
      World(st.(theme := t), w.store, Some(ThemeName(t)))
    case LoggedIn(username) => w.(app := HandleLogin(st, username, w.store))
    case LoggedOut => w.(app := HandleLogout(st))
    case ViewChosen(view) => w.(app := ChangeView(st, view))
    case ShopTypeChosen(shopType) => w.(app := HandleShopTypeChange(st, shopType, w.store))
    case NewScanRequested => w.(app := NewScan(st))
    case ImageChosen(previewUrl, mimeType, extract) =>
      w.(app := RunPipeline(ImageSelected(st, previewUrl, mimeType), extract))
    case Cancelled => w.(app := ResetApp(st))
    case Confirmed(edits) => w.(app := HandleVerificationConfirm(st, Editor.Run(st.extractedItems, edits)))
    case TaxAccepted => w.(app := HandleTaxFinish(st, ComputeTax(st.extractedItems)))
    case Saved(recordId, timestamp, writeOk) => FinishAndSave(w, recordId, timestamp, writeOk)
  }

  /**
   What holds between handlers: a user exactly when past the login screen; no
   scan state outside the scanning flow; a finished scan behind the editor,
   tax and preview screens; and on the preview, the breakdown of exactly the
   rows being previewed.
   */
  predicate Inv(st: AppState) {
    && (st.user.None? <==> st.step == Login)
    && st.step != Processing
    && (st.step == Login || st.step == MainApp || st.step == Upload ==> InProgressCleared(st))
    && (st.step == Verification || st.step == TaxAnalysis || st.step == FinalPreview ==>
          st.pipelineStage == Complete && st.currentImage.Some?)
    && (st.step != FinalPreview ==> st.finalTaxDetails.None?)
    && (st.step == FinalPreview ==> st.finalTaxDetails == Some(ComputeTax(st.extractedItems)))
  }

  lemma InitialSatisfiesInv(saved: Option<string>, prefersDark: bool)
    ensures Inv(Initial(saved, prefersDark))
  {
  }

  /** Every handler the screens offer keeps the invariant. */
  lemma NextKeepsInv(w: World, e: Event)
    requires Inv(w.app) && Enabled(w.app, e)
    ensures Inv(Next(w, e).app)
  {
  }

  /** The displayed history is what storage holds for the logged-in user. */
  predicate Synced(w: World) {
    w.app.user.Some? ==> w.app.history == GetRecords(w.store, w.app.user.value.username)
  }

  /** Every handler keeps history and storage in step, except a save whose write fails. */
  lemma NextKeepsSynced(w: World, e: Event)
    requires Synced(w) && Enabled(w.app, e)
    requires e.Saved? ==> e.writeOk
    ensures Synced(Next(w, e))
  {
  }

  /** A failed write on save empties the displayed history while storage keeps the old list. */
  lemma FailedSaveEmptiesHistory(w: World, recordId: string, timestamp: string)
    requires Inv(w.app) && Enabled(w.app, Saved(recordId, timestamp, false))
    ensures var r := Next(w, Saved(recordId, timestamp, false));
      r.app.history == [] && r.store == w.store
  {
  }

  /**
   A successful save grows the history by exactly one record, placed first:
   the previewed rows with the breakdown computed from them.
   */
  lemma SaveAddsOneRecord(w: World, recordId: string, timestamp: string)
    requires Inv(w.app) && Synced(w) && Enabled(w.app, Saved(recordId, timestamp, true))
    ensures var r := Next(w, Saved(recordId, timestamp, true));
      && |r.app.history| == |w.app.history| + 1
      && r.app.history[0] == KhataRecord(recordId, timestamp, w.app.extractedItems, ComputeTax(w.app.extractedItems))
      && r.app.history[1..] == w.app.history
      && Synced(r)
  {
  }

  /** With history in step with storage, choosing a shop type changes nothing but the shop type. */
  lemma ShopTypeChangeOnlyShopType(w: World, shopType: ShopType)
    requires Synced(w) && w.app.user.Some?
    ensures Next(w, ShopTypeChosen(shopType)).app == w.app.(user := Some(w.app.user.value.(shopType := shopType)))
  {
  }

  /**
   The editor starts from the extracted rows and Confirm hands over its table:
   with no edits the rows reach the tax screen unchanged.
   */
  lemma UneditedConfirmKeepsRows(w: World)
    requires Inv(w.app) && w.app.step == Verification
    ensures var r := Next(w, Confirmed([])).app;
      r.extractedItems == w.app.extractedItems && r.step == TaxAnalysis && Inv(r)
  {
  }

  /**
   Confirming and accepting the tax screen: the preview shows exactly the
   edited rows with the breakdown computed from them, for the same user and
   the same scanned image.
   */
  lemma ConfirmThenAcceptTax(w: World, edits: seq<Editor.Action>)
    requires Inv(w.app) && w.app.step == Verification
    ensures var r := Next(Next(w, Confirmed(edits)), TaxAccepted).app;
      var rows := Editor.Run(w.app.extractedItems, edits);
      && r.step == FinalPreview
      && r.extractedItems == rows
      && r.finalTaxDetails == Some(ComputeTax(rows))
      && r.user == w.app.user && r.history == w.app.history && r.currentImage == w.app.currentImage
  {
  }

  /** A login form that is accepted enables the login handler with the username typed. */
  lemma AcceptedFormLogsIn(st: AppState, form: Credentials.LoginForm)
    requires st.step == Login
    requires Credentials.HandleSubmit(form).loginAs.Some?
    ensures Enabled(st, LoggedIn(form.username))
  {
  }

  /** A scan confirmed unedited, taxed and saved: one item of 100 is stored with 9 + 9 tax and 118 total. */
  lemma SingleItemScenario(w: World, item: KhataItem, recordId: string, timestamp: string)
    requires Inv(w.app) && w.app.step == Verification
    requires w.app.extractedItems == [item] && item.amount == 100.0
    ensures var w1 := Next(w, Confirmed([]));
      var w2 := Next(w1, TaxAccepted);
      var w3 := Next(w2, Saved(recordId, timestamp, true));
      GetRecords(w3.store, w.app.user.value.username)[0] ==
        KhataRecord(recordId, timestamp, [item], TaxDetails(100.0, 9.0, 9.0, 118.0))
  {
    var w1 := Next(w, Confirmed([]));
    var w2 := Next(w1, TaxAccepted);
    ConfirmThenAcceptTax(w, []);
    assert Editor.Run([item], []) == [item];
    assert w2.app.extractedItems == [item];
    SingleItemExample(item.id);
    assert ComputeTax([item]) == TaxDetails(100.0, 9.0, 9.0, 118.0) by {
      assert Subtotal([item]) == Subtotal([KhataItem(item.id, "2024-01-01", "Rice", 100.0)]);
    }
    assert w2.app.user.Some? && w2.app.finalTaxDetails == Some(TaxDetails(100.0, 9.0, 9.0, 118.0));
    var w3 := FinishAndSave(w2, recordId, timestamp, true);
    assert Next(w2, Saved(recordId, timestamp, true)) == w3;
    assert GetRecords(w3.store, w.app.user.value.username) == [NewRecord(w2.app, recordId, timestamp)] + GetRecords(w2.store, w.app.user.value.username);
  }
}
