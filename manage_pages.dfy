/**
 * The admin list of simple pages (`adminPages`): add, edit by merging the
 * form's three fields, delete, and the form's edit/reset state.
 */
module ManagePages {
  import opened Basics
  import opened Seqs
  import opened Records
  import opened Storage

  datatype PageForm = PageForm(title: string, description: string, embedUrl: string)

  const EmptyPageForm := PageForm("", "", "")

  /** `{...page, ...formData}`: the three form fields replace the page's, id and createdAt stay. */
  function MergeForm(p: SimplePage, f: PageForm): (r: SimplePage)
    ensures r.id == p.id && r.createdAt == p.createdAt
    ensures FormOf(r) == f
  {
    p.(title := f.title, description := f.description, embedUrl := f.embedUrl)
  }

  /** `handleEdit`'s copy of a page into the form. */
  function FormOf(p: SimplePage): PageForm {
    PageForm(p.title, p.description, p.embedUrl)
  }

  /** Editing a page with its own fields changes nothing. */
  lemma MergeOwnForm(p: SimplePage)
    ensures MergeForm(p, FormOf(p)) == p
  {
  }

  function EditPages(pages: seq<SimplePage>, editingId: string, f: PageForm): (r: seq<SimplePage>)
    ensures |r| == |pages|
    ensures forall i :: 0 <= i < |pages| ==> r[i].id == pages[i].id && r[i].createdAt == pages[i].createdAt
    ensures forall i :: 0 <= i < |pages| && pages[i].id != editingId ==> r[i] == pages[i]
    ensures forall i :: 0 <= i < |pages| && pages[i].id == editingId ==> FormOf(r[i]) == f
  {
    MapIf(pages, (p: SimplePage) => p.id == editingId, (p: SimplePage) => MergeForm(p, f))
  }

  function NewPage(id: string, f: PageForm, now: string): (p: SimplePage)
    ensures p.id == id && p.createdAt == now && FormOf(p) == f
  {
    SimplePage(id, f.title, f.description, f.embedUrl, now)
  }

  function DeletePages(pages: seq<SimplePage>, pageId: string): (r: seq<SimplePage>)
    ensures forall i :: 0 <= i < |r| ==> r[i].id != pageId && r[i] in pages
    ensures forall i :: 0 <= i < |pages| && pages[i].id != pageId ==> pages[i] in r
  {
    Filter(pages, (p: SimplePage) => p.id != pageId)
  }

  /** A page added and then deleted by its (fresh) id leaves the list as it was. */
  lemma {:induction false} AddThenDeletePage(pages: seq<SimplePage>, id: string, f: PageForm, now: string)
    requires forall i :: 0 <= i < |pages| ==> pages[i].id != id
    ensures DeletePages(pages + [NewPage(id, f, now)], id) == pages
  {
    var keep := (p: SimplePage) => p.id != id;
    FilterAppend(pages, [NewPage(id, f, now)], keep);
    FilterKeepsAll(pages, keep);
    assert Filter([NewPage(id, f, now)], keep) == [];
  }

  datatype PagesView = PagesView(pages: seq<SimplePage>, form: PageForm, showForm: bool, editingPage: Option<SimplePage>)

  class Manager {
    const store: LocalStore
    var pages: seq<SimplePage>
    var form: PageForm
    var showForm: bool
    var editingPage: Option<SimplePage>

    function View(): PagesView
      reads this
    {
      PagesView(pages, form, showForm, editingPage)
    }

    constructor (store: LocalStore)
      ensures this.store == store
      ensures View() == PagesView(store.adminPages, EmptyPageForm, false, None)
    {
      this.store := store;
      pages, form, showForm, editingPage := store.adminPages, EmptyPageForm, false, None;
    }

    /**
     * `handleSubmit`: editing merges the form into the page with the edited
     * id; otherwise a new page is appended. The form is then reset.
     */
    method Submit(newId: string, now: string)
      modifies this, store
      ensures pages == if old(editingPage).Some? then EditPages(old(pages), old(editingPage).value.id, old(form))
                       else old(pages) + [NewPage(newId, old(form), now)]
      ensures store.State() == old(store.State()).(adminPages := pages)
      ensures form == EmptyPageForm && !showForm && editingPage.None?
    {
      var updated: seq<SimplePage>;
      if editingPage.Some? {
        updated := EditPages(pages, editingPage.value.id, form);
      } else {
        updated := pages + [NewPage(newId, form, now)];
      }
      store.adminPages := updated;
      pages := updated;
      ResetForm();
    }

    /** The "Add New Page" button: open the form as it stands. */
    method OpenForm()
      modifies this
      ensures View() == old(View()).(showForm := true)
    {
      showForm := true;
    }

    /** A keystroke in one of the three inputs: the form is replaced, nothing is stored. */
    method SetForm(f: PageForm)
      modifies this
      ensures View() == old(View()).(form := f)
      ensures store.State() == old(store.State())
    {
      form := f;
    }

    method ResetForm()
      modifies this
      ensures View() == old(View()).(form := EmptyPageForm, showForm := false, editingPage := None)
    {
      form, showForm, editingPage := EmptyPageForm, false, None;
    }

    method Edit(page: SimplePage)
      modifies this
      ensures View() == old(View()).(editingPage := Some(page), form := FormOf(page), showForm := true)
    {
      editingPage := Some(page);
      form := FormOf(page);
      showForm := true;
    }

    /** `handleDelete`: when confirmed, remove the page with that id. */
    method Delete(pageId: string, confirmed: bool)
      modifies this, store
      ensures View() == if confirmed then old(View()).(pages := DeletePages(old(pages), pageId)) else old(View())
      ensures store.State() == if confirmed then old(store.State()).(adminPages := pages) else old(store.State())
    {
      if confirmed {
        var updated := DeletePages(pages, pageId);
        store.adminPages := updated;
        pages := updated;
      }
    }
  }
}
