/**
 * The main-page form: two subpage drafts (Power BI first, spreadsheet
 * second), loading an existing page for editing, per-field subpage edits,
 * and building the page that is handed to the list's save.
 */
module EnhancedPageCreator {
  import opened Basics
  import opened PageTypes
  import opened EnhancedManagePages

  datatype FormData = FormData(
    name: string,
    description: string,
    classification: string,
    powerbiBadgeUrl: string,
    spreadsheetBadgeUrl: string,
    customHtml: string)

  const EmptyForm := FormData("", "", "", "", "", "")

  /** A subpage being edited: everything but its id and timestamps. */
  datatype Draft = Draft(
    name: string,
    kind: SubPageType,
    embedUrl: string,
    elements: seq<PageElement>,
    classification: string,
    customHtml: string)

  const InitialDrafts: seq<Draft> := [
    Draft("Power BI Analytics", SubPowerBi, "", [], "", ""),
    Draft("Spreadsheet Data", SubSpreadsheet, "", [], "", "")
  ]

  /** A new form holds two empty drafts, Power BI first and spreadsheet second. */
  lemma InitialDraftsShape()
    ensures |InitialDrafts| == 2
    ensures InitialDrafts[0].kind == SubPowerBi && InitialDrafts[1].kind == SubSpreadsheet
    ensures forall i :: 0 <= i < 2 ==> InitialDrafts[i].embedUrl == "" && InitialDrafts[i].elements == []
  {
  }

  function DraftOf(sp: SubPage): Draft {
    Draft(sp.name, sp.kind, sp.embedUrl, sp.elements, sp.classification, sp.customHtml.GetOr(""))
  }

  /**
   * The edit-load effect: the form takes the page's fields (absent optional
   * fields as ""), and the drafts take the first two subpages only when the
   * page has at least two; otherwise the drafts are left as they were.
   */
  function LoadForEdit(page: MainPage, drafts: seq<Draft>): (r: (FormData, seq<Draft>))
    ensures r.0.name == page.name && r.0.description == page.description && r.0.classification == page.classification
    ensures r.0.customHtml == page.customHtml.GetOr("")
    ensures r.0.powerbiBadgeUrl == page.powerbiBadgeUrl.GetOr("") && r.0.spreadsheetBadgeUrl == page.spreadsheetBadgeUrl.GetOr("")
    ensures |page.subPages| >= 2 ==> |r.1| == 2 && r.1[0] == DraftOf(page.subPages[0]) && r.1[1] == DraftOf(page.subPages[1])
    ensures |page.subPages| < 2 ==> r.1 == drafts
  {
    (FormData(page.name, page.description, page.classification,
              page.powerbiBadgeUrl.GetOr(""), page.spreadsheetBadgeUrl.GetOr(""), page.customHtml.GetOr("")),
     if |page.subPages| >= 2 then [DraftOf(page.subPages[0]), DraftOf(page.subPages[1])] else drafts)
  }

  /** The four subpage fields the form edits; the type is never edited. */
  datatype DraftField = DraftName | DraftClassification | DraftEmbedUrl | DraftCustomHtml

  function SetDraftField(d: Draft, field: DraftField, value: string): Draft {
    match field
    case DraftName => d.(name := value)
    case DraftClassification => d.(classification := value)
    case DraftEmbedUrl => d.(embedUrl := value)
    case DraftCustomHtml => d.(customHtml := value)
  }

  /** `updateSubPage`: only the named field of the draft at `index` changes. */
  function UpdateDraft(drafts: seq<Draft>, index: nat, field: DraftField, value: string): (r: seq<Draft>)
    requires index < |drafts|
    ensures |r| == |drafts|
    ensures forall i :: 0 <= i < |drafts| && i != index ==> r[i] == drafts[i]
    ensures r[index].kind == drafts[index].kind && r[index].elements == drafts[index].elements
    ensures field == DraftName ==> r[index] == drafts[index].(name := value)
    ensures field == DraftClassification ==> r[index] == drafts[index].(classification := value)
    ensures field == DraftEmbedUrl ==> r[index] == drafts[index].(embedUrl := value)
    ensures field == DraftCustomHtml ==> r[index] == drafts[index].(customHtml := value)
  {
    drafts[index := SetDraftField(drafts[index], field, value)]
  }

  /** `handleSubmit`'s outcome: the page handed to `onSave`, or the error shown. */
  datatype Submitted = Saved(page: MainPage) | Refused(message: string)

  /** `editingPage?.subPages[index]?.<field>`, absent when out of range. */
  function OldSubPage(editing: Option<MainPage>, index: nat): Option<SubPage> {
    if editing.Some? && index < |editing.value.subPages| then Some(editing.value.subPages[index]) else None
  }

  function OldSubId(editing: Option<MainPage>, index: nat): Option<string> {
    if OldSubPage(editing, index).Some? then Some(OldSubPage(editing, index).value.id) else None
  }

  function OldSubCreatedAt(editing: Option<MainPage>, index: nat): Option<string> {
    if OldSubPage(editing, index).Some? then Some(OldSubPage(editing, index).value.createdAt) else None
  }

  function BuildSubPage(d: Draft, index: nat, editing: Option<MainPage>, nowId: string, now: string): SubPage {
    SubPage(OrElse(OldSubId(editing, index), nowId + "-" + NatToString(index)),
            d.name, d.kind, d.embedUrl, d.elements, d.classification, Some(d.customHtml),
            OrElse(OldSubCreatedAt(editing, index), now), now)
  }

  /**
   * `handleSubmit`: a blank name is refused with "Page name is required";
   * otherwise the page keeps the edited page's id, createdAt and canvas
   * when there is one, each subpage keeps the id and createdAt of the
   * edited subpage at its index, and every updatedAt is `now`.
   */
  function BuildPage(form: FormData, drafts: seq<Draft>, editing: Option<MainPage>, nowId: string, now: string): (r: Submitted)
    ensures IsBlank(form.name) <==> r == Refused("Page name is required")
    ensures r.Saved? ==> |r.page.subPages| == |drafts| && r.page.updatedAt == now && r.page.name == form.name
    ensures r.Saved? ==> forall i :: 0 <= i < |drafts| ==>
      r.page.subPages[i].kind == drafts[i].kind && r.page.subPages[i].updatedAt == now &&
      r.page.subPages[i].embedUrl == drafts[i].embedUrl && r.page.subPages[i].elements == drafts[i].elements
    ensures r.Saved? ==>
      r.page.description == form.description && r.page.classification == form.classification &&
      r.page.powerbiBadgeUrl == Some(form.powerbiBadgeUrl) && r.page.spreadsheetBadgeUrl == Some(form.spreadsheetBadgeUrl) &&
      r.page.customHtml == Some(form.customHtml)
    ensures r.Saved? ==> forall i :: 0 <= i < |drafts| ==>
      r.page.subPages[i].name == drafts[i].name && r.page.subPages[i].classification == drafts[i].classification &&
      r.page.subPages[i].customHtml == Some(drafts[i].customHtml)
  {
    if IsBlank(form.name) then Refused("Page name is required")
    else
      Saved(MainPage(
        OrElse(if editing.Some? then Some(editing.value.id) else None, nowId),
        form.name, form.description, form.classification,
        Some(form.powerbiBadgeUrl), Some(form.spreadsheetBadgeUrl),
        if editing.Some? then editing.value.elements else [],
        seq(|drafts|, i requires 0 <= i < |drafts| => BuildSubPage(drafts[i], i, editing, nowId, now)),
        Some(form.customHtml),
        OrElse(if editing.Some? then Some(editing.value.createdAt) else None, now),
        now))
  }

  /** A new page: no canvas yet, two subpages (Power BI first) with ids `<now>-0` and `<now>-1`. */
  lemma {:induction false} NewPageShape(form: FormData, nowId: string, now: string)
    requires !IsBlank(form.name)
    ensures var r := BuildPage(form, InitialDrafts, None, nowId, now);
      r.Saved? && r.page.id == nowId && r.page.elements == [] && r.page.createdAt == now &&
      |r.page.subPages| == 2 &&
      r.page.subPages[0].kind == SubPowerBi && r.page.subPages[1].kind == SubSpreadsheet &&
      r.page.subPages[0].id == nowId + "-0" && r.page.subPages[1].id == nowId + "-1"
  {
    assert NatToString(0) == "0" && NatToString(1) == "1";
  }

  /**
   * Editing a page with two or more subpages keeps the page's id,
   * createdAt and canvas, and the first two subpages' ids, createdAt,
   * types and canvases; subpages beyond the second are dropped.
   */
  lemma {:induction false} EditKeepsIdentity(page: MainPage, form: FormData, nowId: string, now: string)
    requires |page.subPages| >= 2 && page.id != "" && page.createdAt != ""
    requires forall i :: 0 <= i < |page.subPages| ==> page.subPages[i].id != "" && page.subPages[i].createdAt != ""
    requires !IsBlank(form.name)
    ensures var r := BuildPage(form, LoadForEdit(page, InitialDrafts).1, Some(page), nowId, now);
      r.Saved? && r.page.id == page.id && r.page.createdAt == page.createdAt && r.page.elements == page.elements &&
      |r.page.subPages| == 2 &&
      forall i :: 0 <= i < 2 ==>
        r.page.subPages[i].id == page.subPages[i].id && r.page.subPages[i].createdAt == page.subPages[i].createdAt &&
        r.page.subPages[i].kind == page.subPages[i].kind && r.page.subPages[i].elements == page.subPages[i].elements
  {
    var drafts := LoadForEdit(page, InitialDrafts).1;
    var r := BuildPage(form, drafts, Some(page), nowId, now);
    forall i | 0 <= i < 2
      ensures r.page.subPages[i].id == page.subPages[i].id && r.page.subPages[i].createdAt == page.subPages[i].createdAt
    {
      assert OldSubPage(Some(page), i) == Some(page.subPages[i]);
    }
  }

  /**
   * Saving an edited page through the list puts it back at the same
   * position, with the same id, so the list's length and order are kept.
   */
  lemma {:induction false} EditSavedInPlace(pages: seq<MainPage>, k: nat, form: FormData, nowId: string, now: string)
    requires k < |pages| && |pages[k].subPages| >= 2 && pages[k].id != ""
    requires !IsBlank(form.name)
    ensures var r := BuildPage(form, LoadForEdit(pages[k], InitialDrafts).1, Some(pages[k]), nowId, now);
      var after := ReplacePage(pages, r.page);
      |after| == |pages| && after[k] == r.page &&
      forall i :: 0 <= i < |pages| && pages[i].id != pages[k].id ==> after[i] == pages[i]
  {
  }

  // ------------------------------------------------------------- component

  class Creator {
    const editingPage: Option<MainPage>
    var form: FormData
    var drafts: seq<Draft>
    var error: Option<string>

    predicate Valid()
      reads this
    {
      |drafts| == 2
    }

    /** Mounting the form runs the edit-load effect when a page is being edited. */
    constructor (editingPage: Option<MainPage>)
      ensures Valid() && this.editingPage == editingPage && error.None?
      ensures editingPage.None? ==> form == EmptyForm && drafts == InitialDrafts
      ensures editingPage.Some? ==> (form, drafts) == LoadForEdit(editingPage.value, InitialDrafts)
    {
      this.editingPage := editingPage;
      form := EmptyForm;
      drafts := InitialDrafts;
      error := None;
      if editingPage.Some? {
        var loaded := LoadForEdit(editingPage.value, InitialDrafts);
        form := loaded.0;
        drafts := loaded.1;
      }
    }

    /** A keystroke in one of the page-level inputs: the form is replaced; drafts and error stay. */
    method SetForm(f: FormData)
      requires Valid()
      modifies this
      ensures Valid()
      ensures form == f && drafts == old(drafts) && error == old(error)
    {
      form := f;
    }

    method UpdateSubPage(index: nat, field: DraftField, value: string)
      requires Valid() && index < 2
      modifies this
      ensures Valid()
      ensures drafts == UpdateDraft(old(drafts), index, field, value)
      ensures form == old(form) && error == old(error)
    {
      var updated := drafts;
      updated := updated[index := SetDraftField(updated[index], field, value)];
      drafts := updated;
    }

    /** `handleSubmit`: the page to save, or None with the error set. */
    method Submit(nowId: string, now: string) returns (saved: Option<MainPage>)
      requires Valid()
      modifies this
      ensures Valid() && form == old(form) && drafts == old(drafts)
      ensures var r := BuildPage(form, drafts, editingPage, nowId, now);
        (r.Saved? ==> saved == Some(r.page)) && (r.Refused? ==> saved.None? && error == Some(r.message))
      ensures saved.Some? ==> |saved.value.subPages| == 2
    {
      var r := BuildPage(form, drafts, editingPage, nowId, now);
      if r.Refused? {
        error := Some(r.message);
        return None;
      }
      saved := Some(r.page);
    }
  }
}
