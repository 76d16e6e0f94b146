# JNE dashboard: a Dafny model of the page, layout and account store

The dashboard is a Next.js application for JNE Express. It has no server
side. Every piece of state it keeps lives in the browser's localStorage,
under a handful of keys:

- `enhancedPages`: main pages, each with its own element canvas and two embedded sub-pages.
- `adminPages`: simple pages with a Power BI embed URL.
- `adminUsers` and `pendingRegistrations`: accounts and registration requests.
- `pageLayouts` and `lastLayoutUpdate`: the legacy layout editor's saved canvases.
- `autoSaveLog` and `lastAutoSave`: the audit log.
- `userRole`, `username` and `userId`: the session.

This project models those keys as one class, `Storage.LocalStore`, with one
field per key. Each React component of the core becomes one module. A
component whose handlers update state becomes a class: its state variables
are fields, and its handlers are methods whose postconditions give the new
view and the new store as functions of the old ones. Those functions
(filters, merges, toggles, page builders, statistics) are stated on values,
and lemmas about them carry the properties the application relies on.
Examples are round trips (add then delete, grant then revoke, save then
reset), order and membership of filters, the login resolution order, the
outcomes of password recovery, and the statistics cards.

Inputs that come from the browser are parameters of the handlers:

- answers to `confirm` and `prompt`;
- fresh ids and timestamps (`Date.now()`, ISO strings);
- cursor positions;
- the `dev` query flag.

Navigation (`router.push`) and `alert` are recorded in fields of the view.

Modules:

- `Basics`: Option, ASCII case folding, substring search and JavaScript truthiness.
- `Seqs`: `filter`, conditional `map` and `find`.
- `PageTypes` (`types/page-types.ts`) and `Records`: the stored records.
- `Storage`: the store and the audit hook.
- One module per component file, named after it.

## Model

| member | source | states |
|---|---|---|
| PageTypes.TypeTag | types/page-types.ts:3 | every element kind is stored under a non-empty tag |
| PageTypes.ParseType | types/page-types.ts:3 | exactly the six tags powerbi, spreadsheet, image, text, button and html name a kind, and reading a tag back inverts TypeTag |
| PageTypes.TypeTagRoundTrip | types/page-types.ts:3 | storing a kind and reading it back gives the same kind |
| PageTypes.SubPageElementType | types/page-types.ts:30 | a subpage is only ever a Power BI or a spreadsheet panel |
| Records.RoleName | components/admin/manage-users.tsx:15 | a role is stored as one of "admin", "viewer" and "developer" |
| Records.RoleNameInjective | components/admin/manage-users.tsx:15 | two roles are stored under the same string exactly when they are the same role |
| EnhancedEditor.DefaultContent | components/developer/enhanced-visual-editor.tsx:125-135 | every kind gets non-empty default content |
| EnhancedEditor.DefaultWidth | components/developer/enhanced-visual-editor.tsx:137-147 | every kind gets a positive default width |
| EnhancedEditor.DefaultHeight | components/developer/enhanced-visual-editor.tsx:149-159 | every kind gets a positive default height |
| EnhancedEditor.DefaultProperties | components/developer/enhanced-visual-editor.tsx:161-175 | each kind gets only the keys it uses, with their starting values: an empty embed URL for Power BI and spreadsheet, an empty image URL with alt "Image" for images, link "#" for buttons, the fixed HTML snippet for HTML elements, and no properties at all for text |
| EnhancedEditor.DefaultSizes | components/developer/enhanced-visual-editor.tsx:137-159 | the default size table: 800x600 for both embeds, 120x40 buttons, 200x30 text, 200x150 images, 300x200 HTML |
| EnhancedEditor.NewElement | components/developer/enhanced-visual-editor.tsx:100-118 | a new element carries the given id and kind, sits at (100, 100), has the kind's default size, content and properties, a blue background only for buttons, white text, font size 14 and radius 8 |
| EnhancedEditor.Merge | components/developer/enhanced-visual-editor.tsx:177-180 | a shallow merge: each key the patch carries wins, every other key, the id and the kind are kept |
| EnhancedEditor.MergeIdempotent | components/developer/enhanced-visual-editor.tsx:177-180 | applying the same update twice is applying it once |
| EnhancedEditor.MergeEmpty | components/developer/enhanced-visual-editor.tsx:177-180 | an empty update changes nothing |
| EnhancedEditor.UpdateElementsSpec | components/developer/enhanced-visual-editor.tsx:177-183 | an update keeps the list's length and order, merges into every element with the id and leaves the others untouched |
| EnhancedEditor.UpdateUnknownId | components/developer/enhanced-visual-editor.tsx:177-183 | updating an id no element carries leaves the list as it was |
| EnhancedEditor.DeleteElementsSpec | components/developer/enhanced-visual-editor.tsx:185-190 | a delete leaves no element with the id and keeps every other element |
| EnhancedEditor.AddThenDelete | components/developer/enhanced-visual-editor.tsx:100-190 | adding an element under a fresh id and deleting it restores the canvas, in order |
| EnhancedEditor.DragTarget | components/developer/enhanced-visual-editor.tsx:209-219 | the drag target is never negative, and each coordinate is either 0 or the cursor minus the container origin minus the grab offset |
| EnhancedEditor.DragTargetUnclamped | components/developer/enhanced-visual-editor.tsx:213-218 | inside the container's visible quadrant the element follows the cursor exactly |
| EnhancedEditor.DragKeepsNonNegative | components/developer/enhanced-visual-editor.tsx:209-219 | a drag step keeps every element at non-negative coordinates |
| EnhancedEditor.ParseIntOr | components/developer/enhanced-visual-editor.tsx:532 | `parseInt(v) \|\| fallback`: a non-zero number is kept, NaN and 0 give the fallback |
| EnhancedEditor.PanelEditChangesOneKey | components/developer/enhanced-visual-editor.tsx:515-662 | a property-panel edit changes one key: style edits keep the other style keys, property edits the other property keys, and no edit changes the id or the kind |
| EnhancedEditor.PanelNumericFallbacks | components/developer/enhanced-visual-editor.tsx:532-596 | input that is not a number, or is zero, falls back to x 0, y 0, width 100, height 50 and font size 14 |
| EnhancedEditor.AutoSavePages | components/developer/enhanced-visual-editor.tsx:37-62 | an auto-save keeps every page's id and position and touches only the target page; main scope replaces its elements, sub scope its target subpage's elements and both timestamps; sub scope without a subpage id writes nothing |
| EnhancedEditor.SaveSubPagesSpec | components/developer/enhanced-visual-editor.tsx:49-57 | inside the target page a subpage save keeps each subpage's id and kind and changes only the target subpage |
| EnhancedEditor.LoadScope | components/developer/enhanced-visual-editor.tsx:81-98 | a missing page, or sub scope without a subpage id, loads nothing; main scope loads the page's own canvas |
| EnhancedEditor.AutoSaveThenLoad | components/developer/enhanced-visual-editor.tsx:37-98 | what is saved is what is loaded: after an auto-save to an existing canvas, loading the same scope yields exactly the saved elements |
| EnhancedEditor.Editor.constructor | components/developer/enhanced-visual-editor.tsx:23-31 | the editor starts with an empty canvas, no selection, no drag, a zero offset and no page loaded |
| EnhancedEditor.Editor.LoadPageData | components/developer/enhanced-visual-editor.tsx:81-98 | the canvas becomes the scope's stored canvas when there is one, and is otherwise kept; the current page is the found page and the current subpage the found subpage in subpage scope, each kept when not found; the selection and drag are unchanged |
| EnhancedEditor.Editor.AutoSave | components/developer/enhanced-visual-editor.tsx:37-62 | the stored collection becomes AutoSavePages of the old one; no other key changes |
| EnhancedEditor.Editor.AddElement | components/developer/enhanced-visual-editor.tsx:100-123 | the canvas gains the new element at the end and is saved; the selection is unchanged |
| EnhancedEditor.Editor.UpdateElement | components/developer/enhanced-visual-editor.tsx:177-183 | the canvas is merged by id and saved |
| EnhancedEditor.Editor.DeleteElement | components/developer/enhanced-visual-editor.tsx:185-190 | the elements with the id are dropped, the selection is cleared and the canvas is saved |
| EnhancedEditor.Editor.MouseDown | components/developer/enhanced-visual-editor.tsx:192-207 | outside edit mode nothing changes; in edit mode the element is selected and dragged, and the grab offset is recorded only when the element exists |
| EnhancedEditor.Editor.MouseMove | components/developer/enhanced-visual-editor.tsx:209-220 | with nothing dragged or no container nothing changes; otherwise the dragged element moves to the clamped target and the canvas is saved |
| EnhancedEditor.Editor.MouseUp | components/developer/enhanced-visual-editor.tsx:222-224 | only the dragged id is cleared |
| EnhancedEditor.Editor.PanelUpdate | components/developer/enhanced-visual-editor.tsx:453-461 | an edit of the selected element merges the panel's payload into it and saves; without a selected, existing element nothing changes |
| EnhancedManagePages.ReplacePage | components/admin/enhanced-manage-pages.tsx:44-45 | an edit save keeps the list's length and order and puts the saved page exactly where pages with its id stood |
| EnhancedManagePages.ReplaceThenDelete | components/admin/enhanced-manage-pages.tsx:44-66 | editing a page and then deleting it leaves the same list as deleting it straight away |
| EnhancedManagePages.RemovePage | components/admin/enhanced-manage-pages.tsx:64-67 | a delete leaves no page with the id and keeps every other page |
| EnhancedManagePages.RemovePageCount | components/admin/enhanced-manage-pages.tsx:64-67 | the page count drops by exactly the number of pages that carried the id |
| EnhancedManagePages.DuplicatePage | components/admin/enhanced-manage-pages.tsx:75-88 | the copy has the new id, the name plus " (Copy)", fresh timestamps, and as many subpages as the original, each with a fresh id and fresh timestamps and otherwise copied |
| EnhancedManagePages.DuplicateSharesContent | components/admin/enhanced-manage-pages.tsx:76-88 | apart from id, name, timestamps and subpage identities the copy equals the original, canvases included |
| EnhancedManagePages.FilterPages | components/admin/enhanced-manage-pages.tsx:97-102 | a page is listed exactly when its name or description contains the search term ignoring case and the category is unset or matches |
| EnhancedManagePages.EmptyFilterListsAll | components/admin/enhanced-manage-pages.tsx:97-102 | with no search term and no category every page is listed, in stored order |
| EnhancedManagePages.GetCategoryInfo | components/admin/enhanced-manage-pages.tsx:104-106 | a known category id gives that category's name and colour; any other id gives "Uncategorized" in #6B7280 |
| EnhancedManagePages.RemainingSlots | components/admin/enhanced-manage-pages.tsx:185 | no slots remain exactly when 15 or more pages exist; below that the pages and the free slots add up to 15 |
| EnhancedManagePages.SubPageTotalShown | components/admin/enhanced-manage-pages.tsx:177 | the header shows twice the number of pages, whatever the pages hold |
| EnhancedManagePages.CategorizedCount | components/admin/enhanced-manage-pages.tsx:181 | the count is at most the number of pages, zero exactly when no page has a category, and the full page count exactly when every page has one |
| EnhancedManagePages.CategorizedCountAppend | components/admin/enhanced-manage-pages.tsx:181 | adding a page raises the count by one exactly when the page has a category |
| EnhancedManagePages.Manager.constructor | components/admin/enhanced-manage-pages.tsx:27-34 | the list starts as the stored collection, with the form closed and nothing being edited |
| EnhancedManagePages.Manager.SavePage | components/admin/enhanced-manage-pages.tsx:41-57 | editing replaces the page in place, creating appends it; the list is written back and the form closes |
| EnhancedManagePages.Manager.OpenForm | components/admin/enhanced-manage-pages.tsx:135 | the create button opens the creator; the list and the page being edited are unchanged |
| EnhancedManagePages.Manager.Cancel | components/admin/enhanced-manage-pages.tsx:113-116 | cancelling closes the creator and forgets the page being edited; the list and the store are unchanged |
| EnhancedManagePages.Manager.Edit | components/admin/enhanced-manage-pages.tsx:59-62 | the page becomes the one being edited and the form opens |
| EnhancedManagePages.Manager.Delete | components/admin/enhanced-manage-pages.tsx:64-73 | once confirmed every page with the id is dropped and the list written back; otherwise nothing changes |
| EnhancedManagePages.Manager.Duplicate | components/admin/enhanced-manage-pages.tsx:75-95 | the copy is appended and written back, with no check against the 15-slot cap |
| EnhancedPageCreator.InitialDraftsShape | components/admin/enhanced-page-creator.tsx:24-41 | a new form holds two empty drafts, Power BI first and spreadsheet second |
| EnhancedPageCreator.LoadForEdit | components/admin/enhanced-page-creator.tsx:55-87 | editing fills the form from the page: name, description, classification, both badge URLs and custom HTML, a missing optional field as ""; it takes the first two subpages as drafts only when the page has at least two, and otherwise keeps the drafts |
| EnhancedPageCreator.UpdateDraft | components/admin/enhanced-page-creator.tsx:125-129 | a field edit changes only the named field of the draft at the index; the other drafts, the type and the canvas are kept |
| EnhancedPageCreator.BuildPage | components/admin/enhanced-page-creator.tsx:89-118 | a blank name (after trimming) is refused with "Page name is required" and nothing else is; a saved page carries the form's name, description, classification, both badge URLs and custom HTML and the new timestamp, and has one subpage per draft carrying that draft's name, kind, classification, embed URL, custom HTML and canvas |
| EnhancedPageCreator.NewPageShape | components/admin/enhanced-page-creator.tsx:99-116 | a new page has the fresh id, no canvas, the new createdAt and two subpages, Power BI first, with ids "<id>-0" and "<id>-1" |
| EnhancedPageCreator.EditKeepsIdentity | components/admin/enhanced-page-creator.tsx:99-116 | an edit keeps the page's id, createdAt and canvas and the first two subpages' ids, createdAt, types and canvases |
| EnhancedPageCreator.EditSavedInPlace | components/admin/enhanced-page-creator.tsx:99-118 | an edited page saved through the page list goes back to its own position, and every other page is unchanged |
| EnhancedPageCreator.Creator.constructor | components/admin/enhanced-page-creator.tsx:15-87 | mounting starts from the empty form and the two initial drafts, or from the page being edited |
| EnhancedPageCreator.Creator.UpdateSubPage | components/admin/enhanced-page-creator.tsx:125-129 | the drafts become UpdateDraft of the old drafts; the form is unchanged |
| EnhancedPageCreator.Creator.SetForm | components/admin/enhanced-page-creator.tsx:158-223 | an input change in the page-level fields replaces the form; the drafts and the error are unchanged |
| EnhancedPageCreator.Creator.Submit | components/admin/enhanced-page-creator.tsx:89-123 | the result is BuildPage's page or no page with its error set; a saved page always has two subpages |
| PageRenderer.RenderBody | components/enhanced-page-renderer.tsx:64-175 | Power BI and spreadsheet elements show an embed exactly when their embed URL is set and a placeholder otherwise; HTML elements show their HTML, or their content when it is unset; only embed kinds ever show the placeholder |
| PageRenderer.RenderElement | components/enhanced-page-renderer.tsx:47-62 | every element is drawn under its own id, at its own position and size, at z-index 1 |
| PageRenderer.RenderAll | components/enhanced-page-renderer.tsx:305-307 | one drawn element per element, in list order: entry i is RenderElement of element i, keyed by its id at zIndex 1 |
| PageRenderer.RenderAllAppend | components/enhanced-page-renderer.tsx:305-307 | drawing a concatenation draws each part in turn, so list order is drawing order |
| PageRenderer.EmbedLifecycle | components/enhanced-page-renderer.tsx:64-110 | a freshly added embed shows its placeholder, and shows the embed once the property panel sets a non-empty URL |
| PageRenderer.ButtonClick | components/enhanced-page-renderer.tsx:139-147 | a click without a link does nothing; a link starting with "/" navigates in the app; any other link opens a new window |
| PageRenderer.NewButtonOpensWindow | components/enhanced-page-renderer.tsx:139-147 | a new button's default "#" link opens in a new window |
| PageRenderer.ScreenOf | components/enhanced-page-renderer.tsx:178-201 | the spinner shows exactly while loading, "Page Not Found" exactly when loading ended without a page, and otherwise the subpage's name and canvas when a subpage is set, else the page's |
| PageRenderer.Resolve | components/enhanced-page-renderer.tsx:26-40 | an unknown page keeps the previous page and subpage; a known page is shown, and with a subpage id the subpage is the match or none |
| PageRenderer.UnmatchedSubPageShowsMain | components/enhanced-page-renderer.tsx:26-40 | a subpage id that matches nothing shows the main page's own canvas and name |
| PageRenderer.SubPageCardLink | components/enhanced-page-renderer.tsx:262 | a subpage card leads to /page/<page>/<subpage>, followed by "?dev=true" in developer mode and by nothing otherwise |
| PageRenderer.SubPageStatus | components/enhanced-page-renderer.tsx:281 | a card says "Configured and ready" exactly when its embed URL is set, else "Configuration pending" |
| PageRenderer.OverlayOf | components/enhanced-page-renderer.tsx:311-319 | the editor overlay exists exactly in developer mode, edits the subpage scope exactly when a subpage is shown, and carries that subpage's id |
| PageRenderer.OverlaySaveIsShown | components/enhanced-page-renderer.tsx:311-319 | what the overlay saves is what the renderer shows after the next load of the same route |
| PageRenderer.Renderer.constructor | components/enhanced-page-renderer.tsx:16-19 | the renderer starts loading, with no page or subpage and edit mode off |
| PageRenderer.Renderer.LoadPageData | components/enhanced-page-renderer.tsx:26-40 | page and subpage become Resolve of the store and the previous values; loading ends in every case |
| PageRenderer.Renderer.ToggleEditMode | components/enhanced-page-renderer.tsx:209 | only edit mode flips |
| LayoutEditor.LegacyWidth | components/developer/visual-page-editor.tsx:74 | every legacy kind gets a positive default width |
| LayoutEditor.LegacyHeight | components/developer/visual-page-editor.tsx:75 | every legacy kind gets a positive default height |
| LayoutEditor.LegacyDefaults | components/developer/visual-page-editor.tsx:71-75 | the default table: button 120x40 "New Button", card 200x120 "New Card", shape 100x100 with no text, text 150x30 "New Text" |
| LayoutEditor.NewLegacyElement | components/developer/visual-page-editor.tsx:67-81 | a new element has the given id and kind, sits at (100, 100), has the kind's size and content, a "#" link exactly when it is a button, radius 50 only for shapes, white text and font size 14 |
| LayoutEditor.MergeLegacy | components/developer/visual-page-editor.tsx:91-92 | the patch's content, position and background replace the element's where given and keep them otherwise; id, kind, size, link, text colour, radius and font size are kept |
| LayoutEditor.DuplicateLegacy | components/developer/visual-page-editor.tsx:109-120 | duplicating an unknown id does nothing; otherwise the list gains, at the end, a copy of the first element with the id, under the new id and moved by (20, 20) |
| LayoutEditor.DuplicateOffset | components/developer/visual-page-editor.tsx:113-118 | the copy differs from its original only in its id and its position, offset by exactly (20, 20) |
| LayoutEditor.LoadLayout | components/developer/visual-page-editor.tsx:42-48 | a stored canvas is found exactly when the page has an entry and the entry has an element list |
| LayoutEditor.ChangedSpec | components/developer/visual-page-editor.tsx:50-107 | after a change the saved canvas is what loads, every other page's entry is untouched, the log gains "layout_updated" then the change's own action, both timestamps are set and no page or account key changes |
| LayoutEditor.Editor.constructor | components/developer/visual-page-editor.tsx:31-36 | the editor starts with no elements, selection, drag, offset or menu |
| LayoutEditor.Editor.Load | components/developer/visual-page-editor.tsx:38-48 | the elements become the page's stored canvas when there is one, else are kept |
| LayoutEditor.Editor.SavePageLayout | components/developer/visual-page-editor.tsx:50-65 | the store becomes SaveLayout of the old store: the page's entry is overwritten, the layout time stamped and "layout_updated" logged |
| LayoutEditor.Editor.Add | components/developer/visual-page-editor.tsx:67-89 | the new element is appended, the canvas saved and "element_added" logged |
| LayoutEditor.Editor.Update | components/developer/visual-page-editor.tsx:91-98 | the element with the id is merged, the canvas saved and "element_updated" logged |
| LayoutEditor.Editor.Delete | components/developer/visual-page-editor.tsx:100-107 | the element with the id is dropped, the canvas saved and "element_deleted" logged; the selection is kept |
| LayoutEditor.Editor.Duplicate | components/developer/visual-page-editor.tsx:109-126 | an unknown id changes nothing; otherwise the offset copy is appended, the canvas saved and "element_duplicated" logged |
| LayoutEditor.Editor.MouseDown | components/developer/visual-page-editor.tsx:128-143 | outside edit mode nothing changes; otherwise the element is selected and dragged, and the grab offset is recorded when it exists |
| LayoutEditor.Editor.MouseMove | components/developer/visual-page-editor.tsx:145-153 | with a dragged element and a container the element moves to the cursor position clamped at zero, saved and logged as an update; otherwise nothing changes |
| LayoutEditor.Editor.MouseUp | components/developer/visual-page-editor.tsx:155-157 | only the dragged id is cleared |
| LayoutEditor.Editor.RightClick | components/developer/visual-page-editor.tsx:159-168 | outside edit mode nothing changes; otherwise the menu opens at the cursor for the element |
| LayoutEditor.Editor.EditContent | components/developer/visual-page-editor.tsx:170-179 | an unknown element changes nothing; a cancelled prompt only closes the menu; an answer, even an empty one, becomes the content and is saved and logged |
| LayoutEditor.Editor.ChangeColor | components/developer/visual-page-editor.tsx:181-190 | an unknown element changes nothing; an empty or cancelled answer only closes the menu; a colour recolours the element and is saved and logged |
| LayoutEditor.Editor.MenuDelete | components/developer/visual-page-editor.tsx:301-304 | the menu's element is deleted and the menu closes |
| LayoutEditor.Editor.MenuDuplicate | components/developer/visual-page-editor.tsx:305-308 | the menu's element is duplicated when it exists: the canvas is saved and "element_duplicated" logged as Duplicate does; the menu closes in every case |
| ManagePages.MergeForm | components/admin/manage-pages.tsx:45 | the form's three fields replace the page's; the id and createdAt are kept |
| ManagePages.MergeOwnForm | components/admin/manage-pages.tsx:45-71 | saving a page with the fields the edit form was filled with changes nothing |
| ManagePages.EditPages | components/admin/manage-pages.tsx:43-46 | an edit keeps every page's id, createdAt and position, gives the edited page the form's fields and leaves the others untouched |
| ManagePages.NewPage | components/admin/manage-pages.tsx:49-53 | a new page carries the fresh id, the form's fields and the creation time |
| ManagePages.DeletePages | components/admin/manage-pages.tsx:76-80 | a delete leaves no page with the id and keeps every other page |
| ManagePages.AddThenDeletePage | components/admin/manage-pages.tsx:40-80 | a page added under a fresh id and then deleted leaves the list as it was |
| ManagePages.Manager.constructor | components/admin/manage-pages.tsx:17-33 | the list starts as the stored pages, with an empty, closed form and nothing being edited |
| ManagePages.Manager.Submit | components/admin/manage-pages.tsx:40-58 | editing replaces the edited page's fields, creating appends a new page; the list is written back and the form reset |
| ManagePages.Manager.ResetForm | components/admin/manage-pages.tsx:60-64 | the form empties and closes and nothing is being edited |
| ManagePages.Manager.OpenForm | components/admin/manage-pages.tsx:97 | the "Add New Page" button shows the form and changes nothing else |
| ManagePages.Manager.SetForm | components/admin/manage-pages.tsx:120-144 | an input change replaces the form; the list and the store are unchanged |
| ManagePages.Manager.Edit | components/admin/manage-pages.tsx:66-74 | the page becomes the one being edited, the form holds its fields and opens |
| ManagePages.Manager.Delete | components/admin/manage-pages.tsx:76-81 | once confirmed the page with the id is dropped and the list written back; otherwise nothing changes |
| ManageUsers.Toggle | components/admin/manage-users.tsx:168-180 | after a toggle the id is selected exactly when it was not before, and every other id keeps its membership |
| ManageUsers.ToggleTwice | components/admin/manage-users.tsx:168-180 | selecting an unselected page and deselecting it again restores the selection exactly, order included |
| ManageUsers.Seeded | components/admin/manage-users.tsx:71-86 | an empty user list is seeded with the default administrator (id "1"); a non-empty one is kept; the result is never empty |
| ManageUsers.MigrateUser | components/admin/manage-users.tsx:88-92 | a migrated record always has a page list and a phone number; a present page list and a non-empty phone are kept; nothing else changes |
| ManageUsers.Migrate | components/admin/manage-users.tsx:88-92 | migration keeps the list's length and migrates each record where it stands |
| ManageUsers.MigrateIdempotent | components/admin/manage-users.tsx:88-92 | migrating twice is migrating once |
| ManageUsers.MergeUserForm | components/admin/manage-users.tsx:121 | the form's fields replace the user's; the id and createdAt are kept |
| ManageUsers.EditUsers | components/admin/manage-users.tsx:120-122 | an edit keeps every user's id and position, merges the form into the edited user and leaves the others untouched |
| ManageUsers.NewUser | components/admin/manage-users.tsx:125-129 | a new user carries the fresh id, the form's fields and the creation time |
| ManageUsers.DeleteUsers | components/admin/manage-users.tsx:158-161 | a delete leaves no user with the id and keeps every other user |
| ManageUsers.PendingOnly | components/admin/manage-users.tsx:97-100 | exactly the registrations still pending are listed |
| ManageUsers.SetStatus | components/admin/manage-users.tsx:192-199 | a decision keeps the list's length and order and changes only the status of the registrations with the id |
| ManageUsers.DecisionKeepsRecord | components/admin/manage-users.tsx:192-234 | after an approval or rejection the record is still stored with every other field intact, and is no longer listed as pending |
| ManageUsers.ApprovalDefaults | components/admin/manage-users.tsx:182-190 | the approval dialog starts with the viewer role, no pages, and the username lowercased plus "@jne.com" |
| ManageUsers.UserFromRegistration | components/admin/manage-users.tsx:208-218 | the approved account takes the name, password and phone from the request and the role, pages and email from the dialog |
| ManageUsers.PageTitle | components/admin/manage-users.tsx:237-240 | an assigned page id shows the first matching page's title, or "Unknown Page" when none matches |
| ManageUsers.Manager.constructor | components/admin/manage-users.tsx:65-105 | mounting seeds an empty store with the default admin, lists the migrated users, the pending requests and the stored pages, with the form closed |
| ManageUsers.Manager.Submit | components/admin/manage-users.tsx:117-137 | editing merges the form into the edited user, creating appends a new user; the list is written back and the form reset |
| ManageUsers.Manager.ResetForm | components/admin/manage-users.tsx:139-143 | the form empties and closes and nothing is being edited |
| ManageUsers.Manager.OpenForm | components/admin/manage-users.tsx:264 | the "Add New User" button shows the form and changes nothing else |
| ManageUsers.Manager.SetForm | components/admin/manage-users.tsx:323-373 | an input change replaces the user form; the lists and the store are unchanged |
| ManageUsers.Manager.SetApprovalEmail | components/admin/manage-users.tsx:487 | only the approval data's email changes |
| ManageUsers.Manager.SetApprovalRole | components/admin/manage-users.tsx:498-500 | only the approval data's role changes |
| ManageUsers.Manager.CloseApproval | components/admin/manage-users.tsx:543 | cancel hides the approval dialog and changes nothing else |
| ManageUsers.Manager.Edit | components/admin/manage-users.tsx:145-156 | the user becomes the one being edited and the form holds their fields |
| ManageUsers.Manager.Delete | components/admin/manage-users.tsx:158-166 | once confirmed the user with the id is dropped and the list written back; otherwise nothing changes |
| ManageUsers.Manager.PageSelection | components/admin/manage-users.tsx:168-180 | the page id is toggled in the approval dialog's list or in the form's list, and nowhere else |
| ManageUsers.Manager.ApproveUser | components/admin/manage-users.tsx:182-190 | the dialog opens for the request with the default approval data |
| ManageUsers.Manager.RejectUser | components/admin/manage-users.tsx:192-203 | once confirmed the stored request is marked rejected and the pending list refreshed; otherwise nothing changes |
| ManageUsers.Manager.ConfirmApproval | components/admin/manage-users.tsx:205-235 | without a selected request nothing changes; otherwise the new account is appended, the stored request marked approved, the pending list refreshed and the dialog closed |
| RegistrationRequests.ApprovalSpec | components/sidebar/registration-requests.tsx:75-113 | an approval appends exactly one account with the request's name and password, keeps every request record with the approved one marked approved and no longer pending, and logs "registration_approved" |
| RegistrationRequests.Requests.constructor | components/sidebar/registration-requests.tsx:30-38 | mounting lists only the pending requests, with nothing selected and the viewer defaults |
| RegistrationRequests.Requests.LoadRequests | components/sidebar/registration-requests.tsx:35-38 | the list becomes the stored requests still pending |
| RegistrationRequests.Requests.Approve | components/sidebar/registration-requests.tsx:45-52 | the request is selected with the viewer role, no pages and "<username lowercased>@jne.com" |
| RegistrationRequests.Requests.Reject | components/sidebar/registration-requests.tsx:54-73 | once confirmed the stored request is marked rejected, "registration_rejected" is logged with its id and username, and the list reloaded; otherwise nothing changes |
| RegistrationRequests.Requests.ConfirmApproval | components/sidebar/registration-requests.tsx:75-113 | without a selection nothing changes; otherwise the store makes the approval transition, the selection clears and the list reloads |
| RegistrationRequests.Requests.PageSelection | components/sidebar/registration-requests.tsx:115-120 | only the approval data's page list changes, by toggling the id |
| RegistrationRequests.Requests.SetApprovalEmail | components/sidebar/registration-requests.tsx:219 | only the approval data's email changes |
| RegistrationRequests.Requests.SetApprovalRole | components/sidebar/registration-requests.tsx:229 | only the approval data's role changes |
| RegistrationRequests.Requests.Cancel | components/sidebar/registration-requests.tsx:195 | the close button (and the cancel button at line 270) drops the selected request; the list, the approval data and the store are unchanged |
| UserManagement.FilterUsers | components/sidebar/user-management.tsx:42-46 | a user is listed exactly when the name contains the search term ignoring case and the role filter is "all" or matches |
| UserManagement.UnfilteredListsAll | components/sidebar/user-management.tsx:42-46 | with no search term and "all" roles every user is listed, in stored order |
| UserManagement.ToggleAccess | components/sidebar/user-management.tsx:48-59 | only users with the id change, and only by the page being toggled in their page list (a missing list counts as empty) |
| UserManagement.AccessActionDescribesToggle | components/sidebar/user-management.tsx:48-69 | the logged action says "removed" exactly when the user no longer has the page after the toggle |
| UserManagement.ToggleAccessTwice | components/sidebar/user-management.tsx:48-59 | granting a page and revoking it again restores the users exactly |
| UserManagement.ChangeRole | components/sidebar/user-management.tsx:72-73 | only users with the id change, and only in their role |
| UserManagement.CountRole | components/sidebar/user-management.tsx:233-240 | a role's count never exceeds the number of users; it is zero exactly when no user has the role, and the whole list exactly when every user has it |
| UserManagement.CountRoleAppend | components/sidebar/user-management.tsx:233-240 | one more user raises the count of that user's role by one and leaves every other role's count alone |
| UserManagement.RoleCountsPartition | components/sidebar/user-management.tsx:233-240 | the admin, developer and viewer counts add up to the number of users |
| UserManagement.Panel.constructor | components/sidebar/user-management.tsx:27-40 | mounting loads the stored users and pages, with an empty search and "all" roles |
| UserManagement.Panel.TogglePageAccess | components/sidebar/user-management.tsx:48-70 | the users are toggled and written back, and "user_page_access_updated" is logged with the action computed before the toggle |
| UserManagement.Panel.RoleChange | components/sidebar/user-management.tsx:72-80 | the role is changed, written back and logged as "user_role_updated" |
| UserManagement.Panel.DeleteUser | components/sidebar/user-management.tsx:82-94 | an unknown id or a refused confirmation changes nothing; otherwise the user is dropped, written back and "user_deleted" logged with the name |
| UserManagement.Panel.SetSearch | components/sidebar/user-management.tsx:24 | only the search term changes |
| UserManagement.Panel.SetRoleFilter | components/sidebar/user-management.tsx:25 | only the role filter changes |
| Basics.Utf16Length | app/register/page.tsx:48 | `.length` of a string: at least its character count and at most twice it, equal to it exactly when no character lies above U+FFFF and twice it exactly when every one does |
| Basics.Utf16LengthAppend | app/register/page.tsx:48 | the code-unit length of a concatenation is the sum of the parts' lengths |
| Register.Validate | app/register/page.tsx:39-65 | the form passes exactly when the name and phone are non-blank, the phone is at least 10 UTF-16 code units long (`Basics.Utf16Length`, as `.length` counts), the password at least 6 and the confirmation matches; otherwise each of the six rules, taken in the source's order, gives its own message as the first one that fails |
| Register.AstralPasswordAccepted | app/register/page.tsx:56-59 | a password of three characters above U+FFFF is six code units long, so a form with it and a matching confirmation passes validation |
| Register.NewRequest | app/register/page.tsx:96-103 | the request is pending and carries the form's name, phone and password |
| Register.RequestMakesNameTaken | app/register/page.tsx:78-90 | once a request is stored its name, in any letter case, counts as taken |
| Register.RegisterPage.constructor | app/register/page.tsx:21-31 | the page opens with an empty form, no error, no toast and no redirect |
| Register.RegisterPage.SetForm | app/register/page.tsx:34-37 | only the form changes |
| Register.RegisterPage.Submit | app/register/page.tsx:67-125 | an invalid form or a taken name shows the message and leaves the store alone; otherwise exactly one pending request is appended, the form clears and the page returns to login |
| Register.SubmitTwice | app/register/page.tsx:78-107 | submitting the same valid name twice stores one request only |
| Login.RedirectPath | app/login/page.tsx:27-40 | admins go to "/admin", developers to "/developer", viewers to their first assigned page or else to the performance dashboard |
| Login.Authenticate | app/login/page.tsx:59-62 | no account is found exactly when no account matches by e-mail or by name; a found account matches one of the two, e-mail first |
| Login.Attempt | app/login/page.tsx:42-79 | the attempt fails exactly when it is neither the developer credentials, nor a stored account, nor "admin"/"admin", with the message "Invalid username or password"; a stored account opens its own session and redirect |
| Login.DeveloperFirst | app/login/page.tsx:50-57 | the developer credentials win over any stored account |
| Login.EmailBeforeName | app/login/page.tsx:60-62 | an e-mail match wins over an earlier name match |
| Login.FallbackWhenNoAccount | app/login/page.tsx:71-75 | "admin"/"admin" opens the fallback admin session when no account accepts it |
| Login.SeededAdminNoAccount | app/login/page.tsx:60-62 | the seeded default account matches "admin"/"admin" neither by e-mail nor by name |
| Login.SeededAdminFallback | app/login/page.tsx:59-75 | with only the seeded account stored, "admin"/"admin" gets the fallback session |
| Login.NameLengthMismatch | app/login/page.tsx:62 | a name of another length never matches by name |
| Login.SeededAdminByEmail | app/login/page.tsx:59-70 | the seeded account signs in by its e-mail and lands on the admin console |
| Login.LoginPage.constructor | app/login/page.tsx:21-25 | the page opens with empty credentials, no error and no redirect |
| Login.LoginPage.SetCredentials | app/login/page.tsx:21-22 | only the typed name and password change |
| Login.LoginPage.Submit | app/login/page.tsx:42-79 | a session writes exactly the three session keys and navigates to its page; a failure leaves the store alone and shows the message |
| ForgotPassword.Recover | app/forgot-password/page.tsx:49-105 | an account is recovered exactly when one matches the name or e-mail (ignoring case) and the phone; otherwise the first matching request's status decides: pending and rejected get their messages, an approved request gets no message, and no match at all gets "User not found or phone number doesn't match our records." |
| ForgotPassword.RequestDecides | app/forgot-password/page.tsx:73-89 | with no matching account, the first matching request's status alone picks the outcome |
| ForgotPassword.ApprovedCanRecover | app/forgot-password/page.tsx:66-71 | after an approval the request's name and phone recover the new account |
| ForgotPassword.ForgotPasswordPage.constructor | app/forgot-password/page.tsx:31-42 | the page opens with an empty form and no result |
| ForgotPassword.ForgotPasswordPage.SetForm | app/forgot-password/page.tsx:44-47 | only the typed name and phone change |
| ForgotPassword.ForgotPasswordPage.Submit | app/forgot-password/page.tsx:49-105 | the store is only read; the view shows the recovered account with the success toast, the refusal message, or nothing |
| ForgotPassword.ForgotPasswordPage.Reset | app/forgot-password/page.tsx:111-115 | the form, the result and the error clear |
| Sidebar.SidebarRoleName | components/sidebar/admin-developer-sidebar.tsx:26 | the sidebar's role prop is one of "admin" and "developer" |
| Sidebar.SystemPages | components/sidebar/admin-developer-sidebar.tsx:40-81 | five system pages, editable exactly for developers |
| Sidebar.BuiltinPages | components/sidebar/admin-developer-sidebar.tsx:84-103 | the performance and shipment dashboards, both Power BI and editable |
| Sidebar.CustomOf | components/sidebar/admin-developer-sidebar.tsx:106-110 | a stored page keeps its id, title, description, date and URL and becomes an editable custom page |
| Sidebar.CustomPages | components/sidebar/admin-developer-sidebar.tsx:106-110 | every stored page, in stored order, as a custom page |
| Sidebar.FixedPages | components/sidebar/admin-developer-sidebar.tsx:112-120 | developers get the system pages and then the built-ins (7 entries); admins only the built-ins |
| Sidebar.CatalogueContents | components/sidebar/admin-developer-sidebar.tsx:112-122 | for either role the stored pages come last and all of them are listed |
| Sidebar.SystemPagesForDevelopersOnly | components/sidebar/admin-developer-sidebar.tsx:114-120 | the catalogue holds a system page exactly when the role is developer |
| Sidebar.PendingCount | components/sidebar/admin-developer-sidebar.tsx:125-128 | the badge equals the number of pending requests: zero exactly when none is pending, every request exactly when all are |
| Sidebar.PendingCountAppend | components/sidebar/admin-developer-sidebar.tsx:125-128 | a new request raises the badge by one exactly when it is pending |
| Sidebar.PageUrl | components/sidebar/admin-developer-sidebar.tsx:130-149 | system pages open at "/<id>", the others at "/dashboard/<id>" with "?dev=true" for developers; a click always navigates |
| Sidebar.AddedPage | components/sidebar/admin-developer-sidebar.tsx:158-166 | the added page carries the given id, title, description and date and no embed URL |
| Sidebar.AddedPageListedLast | components/sidebar/admin-developer-sidebar.tsx:169-180 | an added page is listed last and opened at the URL a click on it would use |
| Sidebar.ShownPanel | components/sidebar/admin-developer-sidebar.tsx:306-326 | the pages tab shows the page list; the user and request panels never show for developers |
| Sidebar.AdminSidebar.constructor | components/sidebar/admin-developer-sidebar.tsx:33-36 | mounting loads the catalogue and the pending count on the pages tab |
| Sidebar.AdminSidebar.Reload | components/sidebar/admin-developer-sidebar.tsx:38-123 | only the listed pages change, to the catalogue of the current store |
| Sidebar.AdminSidebar.ReloadPendingRequests | components/sidebar/admin-developer-sidebar.tsx:125-128 | only the badge count changes |
| Sidebar.AdminSidebar.SelectTab | components/sidebar/admin-developer-sidebar.tsx:27 | only the active tab changes |
| Sidebar.AdminSidebar.PageClick | components/sidebar/admin-developer-sidebar.tsx:130-149 | only the navigation changes, to the page's URL |
| Sidebar.AdminSidebar.SaveToDatabase | components/sidebar/admin-developer-sidebar.tsx:183-195 | one log entry stamped with the sidebar's role is appended and the last-save time set |
| Sidebar.AdminSidebar.AddPage | components/sidebar/admin-developer-sidebar.tsx:151-181 | a cancelled or empty title or description changes nothing; otherwise the page is appended, "page_created" logged, the list reloaded and the page opened |
| PageList.FilterList | components/sidebar/page-list.tsx:38-42 | a page is listed exactly when its title contains the search term ignoring case and the type filter is "all" or matches |
| PageList.PageStatus | components/sidebar/page-list.tsx:57-60 | a page is Modified exactly when a layout is saved under its id |
| PageList.CurrentPageMatchesLink | components/sidebar/page-list.tsx:62-67 | for admins the highlighted page is the page a click opens; for developers the link differs only by "?dev=true" |
| PageList.PageDeleted | components/sidebar/page-list.tsx:76-89 | a confirmed delete removes every page with the id and its saved layout, keeps the other layouts, logs "page_deleted" and changes nothing else |
| PageList.AddThenDeleteRestores | components/sidebar/page-list.tsx:79-81 | adding a page from the sidebar and deleting it again restores the stored pages |
| PageList.CountKind | components/sidebar/page-list.tsx:239-245 | a kind's count never exceeds the number of listed pages; it is zero exactly when no listed page has the kind, and the whole list exactly when every one has it |
| PageList.CountKindAppend | components/sidebar/page-list.tsx:239-245 | one more listed page raises the count of its own kind by one and leaves the other kinds' counts alone |
| PageList.ModifiedCount | components/sidebar/page-list.tsx:248-250 | the Modified figure is at most the number of listed pages, zero exactly when no listed page has a saved layout, and all of them exactly when every one has |
| PageList.ModifiedCountMonotone | components/sidebar/page-list.tsx:57-60 | more saved layouts never lower the figure, and a new layout for a listed page raises it |
| PageList.ModifiedCountAfterSave | components/sidebar/page-list.tsx:248-250 | saving a layout for a listed page that had none raises the figure |
| PageList.ModifiedCountAfterReset | components/sidebar/page-list.tsx:248-250 | dropping a listed page's saved layout lowers the figure |
| PageList.KindCountsPartition | components/sidebar/page-list.tsx:236-245 | the custom, system and Power BI counts add up to the total |
| PageList.AdminListHasNoSystemPages | components/sidebar/page-list.tsx:241-246 | an admin's list counts no system pages |
| PageList.AdminListCountsStoredPages | components/sidebar/page-list.tsx:239 | an admin's custom count equals the number of stored pages |
| PageList.PageListPanel.constructor | components/sidebar/page-list.tsx:35-36 | the panel opens with an empty search, "all" types, no alert and no reload |
| PageList.PageListPanel.SetSearch | components/sidebar/page-list.tsx:35 | only the search term changes |
| PageList.PageListPanel.SetTypeFilter | components/sidebar/page-list.tsx:36 | only the type filter changes |
| PageList.PageListPanel.DeletePage | components/sidebar/page-list.tsx:69-94 | system and Power BI pages are refused with an alert; a confirmed custom page is deleted as PageDeleted says and the window reloads; otherwise nothing changes |
| DashboardLayout.ViewerPages | components/dashboard-layout.tsx:58-71 | only a viewer with a session id gets pages; for a known user with a page list these are exactly the stored pages whose id is assigned, drawn from the stored pages |
| DashboardLayout.ViewerPagesAppend | components/dashboard-layout.tsx:58-71 | stored order is kept: the pages shown for two stored lists in a row are those of the first followed by those of the second |
| DashboardLayout.ViewerPagesSingle | components/dashboard-layout.tsx:58-71 | a single stored page is shown exactly when the session is a viewer with an id whose user's page list holds that page's id |
| DashboardLayout.AllAssignedKeepsOrder | components/dashboard-layout.tsx:65 | when every stored page is assigned the viewer sees all of them in stored order |
| DashboardLayout.NavTargets | components/dashboard-layout.tsx:172-230 | a viewer with pages gets one link per page, in order; everyone else gets the performance and shipment dashboards |
| DashboardLayout.LastSegment | components/dashboard-layout.tsx:257 | the editor's page id is the slash-free tail of the path, preceded by a slash when shorter than the path |
| DashboardLayout.LastSegmentAfterSlash | components/dashboard-layout.tsx:257 | a slash-free segment after a slash is recovered whole |
| DashboardLayout.EditorEditsShownPage | components/dashboard-layout.tsx:255-257 | on "/dashboard/<id>" the layout editor edits the layout saved under that id |
| DashboardLayout.Frame.constructor | components/dashboard-layout.tsx:50-72 | mounting reads the role, the developer flag and, for viewers, their assigned pages; edit mode and the sidebar start off |
| DashboardLayout.Frame.SaveToDatabase | components/dashboard-layout.tsx:36-48 | one log entry stamped with the role read on mount is appended and the last-save time set |
| DashboardLayout.Frame.Logout | components/dashboard-layout.tsx:74-79 | the three session keys are removed, nothing else in the store changes, and the browser goes to "/login" |
| DashboardLayout.Frame.ToggleEditMode | components/dashboard-layout.tsx:85-88 | only edit mode flips |
| DashboardLayout.Frame.ToggleSidebar | components/dashboard-layout.tsx:144 | only the sidebar visibility flips |
| DashboardLayout.Frame.SaveLayout | components/dashboard-layout.tsx:95-99 | only the layout timestamp is written, and the alert is shown |
| DashboardLayout.Frame.Undo | components/dashboard-layout.tsx:101-103 | nothing changes |
| DashboardLayout.Frame.Redo | components/dashboard-layout.tsx:105-107 | nothing changes |
| PageRouter.Fallback | components/dynamic-page-router.tsx:38-42 | with no page left the browser goes to the performance dashboard, otherwise to the first page with the query appended |
| PageRouter.LoadOutcome | components/dynamic-page-router.tsx:30-45 | either the page with the id is shown or, exactly when no stored page has the id, the browser is redirected, keeping the dev flag when set |
| PageRouter.SetEmbedUrl | components/dynamic-page-router.tsx:57-59 | every page with the shown page's id becomes the shown page with the new URL; the others stay |
| PageRouter.UpdateThenLoad | components/dynamic-page-router.tsx:50-60 | after an update, loading the same id shows the new URL |
| PageRouter.DeleteRedirectAvoidsDeleted | components/dynamic-page-router.tsx:68-76 | after a delete the redirect never targets the deleted page |
| PageRouter.Router.constructor | components/dynamic-page-router.tsx:29-48 | mounting loads the page or sets the redirect, and loading ends |
| PageRouter.Router.UpdateEmbedUrl | components/dynamic-page-router.tsx:50-60 | a cancelled or empty answer, or no page, changes nothing; otherwise the shown page and the stored list take the new URL |
| PageRouter.Router.DeletePage | components/dynamic-page-router.tsx:62-77 | without a page or a confirmation nothing changes; otherwise the page leaves the store and the browser goes to the first remaining page with "?dev=true" |
| DeveloperPageList.BuiltinEntries | components/developer/developer-page-list.tsx:20-33 | the performance and shipment dashboards, tagged "Built-in" and stamped with the render time |
| DeveloperPageList.AllPages | components/developer/developer-page-list.tsx:62-65 | the two built-ins first, then every stored page in stored order tagged "Custom" with its own date |
| DeveloperPageList.LayoutReset | components/developer/developer-page-list.tsx:49-60 | the page's layout becomes Default, every other page keeps its status and saved layout, the layout timestamp is set, and nothing else changes |
| DeveloperPageList.ResetThenLoad | components/developer/developer-page-list.tsx:49-53 | after a reset the layout editor finds no saved layout for the page |
| DeveloperPageList.SaveThenReset | components/developer/developer-page-list.tsx:49-53 | saving a page's first layout and resetting it restores the stored layouts |
| DeveloperPageList.DeveloperList.constructor | components/developer/developer-page-list.tsx:35-42 | mounting loads the stored pages, with no alert |
| DeveloperPageList.DeveloperList.ResetPageLayout | components/developer/developer-page-list.tsx:49-60 | once confirmed the store makes the reset transition and the alert is shown; otherwise nothing changes |
| EnhancedAdminStats.Configured | components/admin/enhanced-admin-stats.tsx:26 | exactly the sub-pages with a non-empty embed URL are counted as configured |
| EnhancedAdminStats.ConfiguredSubPages | components/admin/enhanced-admin-stats.tsx:25-27 | the configured count never exceeds the sub-page total |
| EnhancedAdminStats.SumsAppend | components/admin/enhanced-admin-stats.tsx:24-27 | both sums add up over consecutive runs of pages |
| EnhancedAdminStats.TwoPerPageMatchesHeader | components/admin/enhanced-admin-stats.tsx:24 | the card's sub-page total agrees with the page header's figure when every page has two sub-pages |
| EnhancedAdminStats.HeaderCanDisagree | components/admin/enhanced-admin-stats.tsx:24 | a page with any other number of sub-pages makes the two figures differ |
| EnhancedAdminStats.LoadStats | components/admin/enhanced-admin-stats.tsx:20-37 | the page count is the number of stored pages; the sub-page, configured and categorised cards are the sums TotalSubPages, ConfiguredSubPages and CategorizedCount (configured at most all, categorised at most pages); the free slots are max(0, 15 - pages) |
| EnhancedAdminStats.LoadStatsAfterCreate | components/admin/enhanced-admin-stats.tsx:20-37 | one more stored page moves every card by exactly that page's own contribution, and the free slots drop by one until none is left |
| EnhancedAdminStats.EmptyStoreMatchesInitialState | components/admin/enhanced-admin-stats.tsx:8-14 | an empty store computes the same figures as the initial state |
| DeveloperStats.ElementTotalRemove | components/developer/developer-stats.tsx:26-31 | the element total does not depend on the order the layouts are visited |
| DeveloperStats.ElementTotalAfterSave | components/developer/developer-stats.tsx:26-31 | saving a canvas under a page makes that page contribute exactly the canvas's elements |
| DeveloperStats.ElementTotalAfterReset | components/developer/developer-stats.tsx:26-31 | resetting a page's layout removes exactly that layout's elements from the total |
| DeveloperStats.SaveLayoutCountsCanvas | components/developer/developer-stats.tsx:26-36 | saving a page's first layout adds its elements to the element count and one custom component |
| DeveloperStats.EditableElements | components/developer/developer-stats.tsx:26-31 | the loop's running total is the sum of the element counts of all saved layouts |
| DeveloperStats.LoadStats | components/developer/developer-stats.tsx:21-39 | pages are the stored pages plus the two built-ins, elements the layout total, components the number of saved layouts, and the last change the layout timestamp or "Never" when it is missing or empty |
| AdminStats.LoadStats | components/admin/admin-stats.tsx:21-32 | pages and users are the stored counts; the admin card is CountRole of Admin and the viewer card CountRole of Viewer, each at most the users |
| AdminStats.SubtotalsMissDevelopers | components/admin/admin-stats.tsx:26-30 | admins, viewers and developers add up to the users, and the admin and viewer cards add up to the total exactly when there are no developers |
| AdminStats.DeveloperWidensGap | components/admin/admin-stats.tsx:28-30 | any developer account makes the admin and viewer cards fall short of the total |
| AdminStats.SeededStoreStats | components/admin/admin-stats.tsx:26-30 | a freshly seeded store shows one user, an admin |
| Storage.Logged | components/dashboard-layout.tsx:36-48 | the log grows by exactly one entry at the end, stamped with the time and the stored user name, and the last-save time is set |
| Storage.LoggedChangesOnlyLog | components/dashboard-layout.tsx:36-48 | logging changes only the log and the last-save time |
| Storage.LogAppendOnly | components/dashboard-layout.tsx:36-48 | two saves in a row keep both entries in order after the earlier log |
| Storage.LocalStore.constructor | components/dashboard-layout.tsx:50-53 | a fresh browser store holds no keys |
| Storage.LocalStore.SaveToDatabase | components/dashboard-layout.tsx:36-48 | the store makes the logging transition |

## Left out

- Power BI embedding (`powerbi-embed.tsx`, `lib/powerbi-config.ts`): the SDK script, `powerbi.embed` and its events are foreign, asynchronous calls. The model only decides between an embed and a placeholder.
- JSX, styling, framer-motion animations, toasts, the DOM auto-save indicator, category icons (modelled as empty strings) and `window.location.reload` (recorded as a flag) are presentation only.
- The image upload through `FileReader` in the enhanced editor is DOM I/O and is not modelled.
- JSON (de)serialisation is not modelled: each key holds a typed value, and an absent key reads as its empty default. A malformed value, which would make `JSON.parse` throw, is not modelled.
- Log payloads keep only the ids and scalar fields of the objects the source logs; whole element and page objects are not copied into the log.
- `toLowerCase` is ASCII case folding and `includes` is substring search. Unicode case mapping is not modelled. `trim` is modelled exactly: `Basics.IsWhitespace` is ECMAScript's full set of white-space and line-terminator characters. String `.length` is modelled exactly where the source compares it with a constant (the registration rules): `Basics.Utf16Length` counts UTF-16 code units, two for a character above U+FFFF.
- Timers and React's asynchronous state batching are not modelled: the `setTimeout` delays and deferred redirects are dropped, and each handler is one atomic step over the store.
- Pixel geometry (`getBoundingClientRect`, `clientX`) is floating point in the browser; it is modelled with integers.
- The enhanced editor's `onSaveToDatabase` callback only writes to the console in its one caller (`enhanced-page-renderer.tsx`), so the model's enhanced edits append nothing to the audit log.
- The request panel's `onRequestsUpdate` callback calls into the sidebar; the sidebar's own `ReloadPendingRequests` models what it does.
- The request panel's page list, which it loads only to display page titles, is not modelled.
- The property panel's numeric parsing is modelled as an optional integer with the source's fallbacks. Parsing of floating-point text is not modelled.
- The progress-bar percentage of the enhanced statistics and the shell pages (`app/admin/page.tsx`, `app/developer/page.tsx`, the dashboard routes) are not part of this model.
- The toolbar, the context menu and the animated background are not part of this model: they are presentation only.
- Ids are parameters, and nothing assumes they are unique, because the source does not guarantee it.
- The property panel looks up the selected element with a non-null assertion and would fail to render if the element were gone. `EnhancedEditor.Editor.PanelUpdate` does not model that failure: with no element selected, or a selected element that is no longer on the canvas, it changes nothing.
- Element updates from the property panel never carry an element's id or type, so the model's patch type has no fields for them.
- `page.elements || []` in the enhanced editor and renderer: every stored page is modelled with an element list, so a page stored without one is not modelled.
- The extra `type` and `isEditable` keys that the sidebar spreads into a stored page are not kept, because nothing reads them back from the store.
- Each keystroke in a form is modelled as one setter that replaces the whole form (`SetForm`, `SetCredentials`), rather than one field at a time. The approval dialogs' email and role inputs have one setter each.

## Notes on the application's behaviour

- The enhanced editor's `addElement` appends the new element without selecting it (`enhanced-visual-editor.tsx:100-123`), so `selectedElement` keeps its old value after an add.
- Editing a main page rebuilds exactly two sub-pages from the form. A stored page with more than two sub-pages loses the extras, and the model keeps that behaviour.
- The registration form's phone rule counts UTF-16 code units, not digits: ten letters pass, and so do five characters above U+FFFF. A password of three emoji is six code units long and passes the length rule (`Register.AstralPasswordAccepted`).
- A recovery attempt that finds an approved request but no matching account shows neither an error nor an account (`ForgotPassword.Recover` returns `Silent`).
- The page router's delete always adds `?dev=true` to its redirect, whatever the mode.
- The enhanced editor's mutations reach the audit log only through a callback that its one caller turns into a console message, so they append nothing to the log; only the legacy layout editor's mutations are logged.
