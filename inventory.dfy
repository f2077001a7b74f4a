/** The gear inventory screen: the category filter of the list and the
    add-item form.  The category predicates shared by the other screens
    live here too. */
module Inventory {
  import opened Seqs
  import opened Types

  /** Devices a wick is built in: atomizers and pod systems. */
  predicate IsDevice(item: InventoryItem)
  {
    item.category == "atomizer" || item.category == "pod_system"
  }

  /** `filteredItems`: everything for "all", otherwise exactly the items
      of that category, in their order. */
  function FilterItems(items: seq<InventoryItem>, filter: string): (r: seq<InventoryItem>)
    ensures filter == "all" ==> r == items
    ensures filter != "all" ==>
              (forall x :: x in r <==> x in items && x.category == filter) && SubsequenceOf(r, items)
    ensures filter != "all" ==> forall i :: 0 <= i < |items| ==>
              multiset(r)[items[i]] == if items[i].category == filter then multiset(items)[items[i]] else 0
  {
    if filter == "all" then items
    else
      FilterIsSubsequence((i: InventoryItem) => i.category == filter, items);
      Filter((i: InventoryItem) => i.category == filter, items)
  }

  /** Filtering by the category every item already has keeps the list. */
  lemma FilterBySharedCategory(items: seq<InventoryItem>, filter: string)
    requires forall i :: 0 <= i < |items| ==> items[i].category == filter
    ensures FilterItems(items, filter) == items
  {
    if filter != "all" {
      FilterKeepsAll((i: InventoryItem) => i.category == filter, items);
    }
  }

  const DefaultImageUrl: string :=
    "https://images.unsplash.com/photo-1550133730-695473e51d90?q=80&w=200&auto=format&fit=crop"

  /** The empty form: an atomizer with no name, brand or description and
      the stock picture.  Its id is a placeholder the application
      replaces. */
  const EmptyDraft: InventoryItem :=
    InventoryItem("", "", Some(""), Some(DefaultImageUrl), Some(""), "atomizer", None, None, None)

  /** The form after a submission: name, brand, description and picture
      are reset and every other field, the category among them, is kept. */
  function ClearedDraft(draft: InventoryItem): (r: InventoryItem)
    ensures r.name == "" && r.brand == Some("") && r.description == Some("")
    ensures r.imageUrl == Some(DefaultImageUrl)
    ensures r.(name := draft.name, brand := draft.brand, description := draft.description,
               imageUrl := draft.imageUrl) == draft
  {
    draft.(name := "", brand := Some(""), description := Some(""), imageUrl := Some(DefaultImageUrl))
  }

  /** Clearing the empty form gives the empty form again, and clearing
      twice is clearing once. */
  lemma ClearedDraftIdempotent(draft: InventoryItem)
    ensures ClearedDraft(EmptyDraft) == EmptyDraft
    ensures ClearedDraft(ClearedDraft(draft)) == ClearedDraft(draft)
  {
  }

  class InventoryForm {
    var showForm: bool
    var filter: string
    var draft: InventoryItem

    constructor ()
      ensures !showForm && filter == "all" && draft == EmptyDraft
    {
      showForm, filter, draft := false, "all", EmptyDraft;
    }

    method ToggleForm()
      modifies this`showForm
      ensures showForm == !old(showForm)
    {
      showForm := !showForm;
    }

    method SetFilter(filter': string)
      modifies this`filter
      ensures filter == filter'
    {
      filter := filter';
    }

    /** The category select changes the category and nothing else. */
    method SetCategory(category: string)
      modifies this`draft
      ensures draft == old(draft).(category := category)
    {
      draft := draft.(category := category);
    }

    /** A loaded picture replaces the draft's image. */
    method SetImage(dataUrl: string)
      modifies this`draft
      ensures draft == old(draft).(imageUrl := Some(dataUrl))
    {
      draft := draft.(imageUrl := Some(dataUrl));
    }

    /** `handleSubmit`: with an empty name nothing is added and nothing
        changes; otherwise the draft is handed over, the form is cleared
        and closed. */
    method HandleSubmit() returns (added: Option<InventoryItem>)
      modifies this`draft, this`showForm
      ensures old(draft).name == "" ==> added == None && draft == old(draft) && showForm == old(showForm)
      ensures old(draft).name != "" ==>
                added == Some(old(draft)) && draft == ClearedDraft(old(draft)) && !showForm
    {
      if draft.name == "" {
        return None;
      }
      added := Some(draft);
      draft := ClearedDraft(draft);
      showForm := false;
    }
  }
}
