/** The showcase editor of components/admin/project-showcase.tsx: a form over
    one project showcase with an item list, derived totals, save and send.
    The `onSave` callback it declares is never called, so a save stays in
    the editor's own state. */
module ShowcaseEditor {
  import opened Types
  import opened Lists
  import opened Text
  import MockData

  /** `items.reduce((sum, item) => sum + item.quantity * item.unitPrice, 0)`. */
  function ItemsTotal(items: seq<ShowcaseItem>): int {
    Sum(items, MockData.ShowcaseLine)
  }

  /** The item `addItem` appends: one unit of a nameless feature at price 0. */
  function NewItem(now: Instant): ShowcaseItem {
    ShowcaseItem("item-" + IntText(now), "", "", 1, 0, Feature)
  }

  /** `Partial<ShowcaseItem>`. */
  datatype ItemPatch = ItemPatch(
    id: Option<string>, name: Option<string>, description: Option<string>,
    quantity: Option<int>, unitPrice: Option<int>, category: Option<ItemCategory>)

  function MergeItem(i: ShowcaseItem, q: ItemPatch): ShowcaseItem {
    ShowcaseItem(q.id.GetOr(i.id), q.name.GetOr(i.name), q.description.GetOr(i.description),
                 q.quantity.GetOr(i.quantity), q.unitPrice.GetOr(i.unitPrice), q.category.GetOr(i.category))
  }

  function UpdateItems(items: seq<ShowcaseItem>, id: string, q: ItemPatch): (r: seq<ShowcaseItem>)
    ensures |r| == |items|
    ensures forall k :: 0 <= k < |items| ==> r[k] == if items[k].id == id then MergeItem(items[k], q) else items[k]
  {
    MapWhere(items, (i: ShowcaseItem) => i.id == id, (i: ShowcaseItem) => MergeItem(i, q))
  }

  function ItemWithId(id: string): ShowcaseItem -> bool {
    (i: ShowcaseItem) => i.id == id
  }

  function ItemWithoutId(id: string): ShowcaseItem -> bool {
    (i: ShowcaseItem) => i.id != id
  }

  function DeleteItems(items: seq<ShowcaseItem>, id: string): (r: seq<ShowcaseItem>)
    ensures forall k :: 0 <= k < |r| ==> r[k].id != id
    ensures forall i :: i in r <==> i in items && i.id != id
    ensures forall i :: multiset(r)[i] == if i.id != id then multiset(items)[i] else 0
    ensures IsSubsequence(r, items)
  {
    var keep := ItemWithoutId(id);
    forall i ensures i in Filter(items, keep) <==> i in items && keep(i) {
      FilterMember(items, keep, i);
    }
    forall i ensures multiset(Filter(items, keep))[i] == if keep(i) then multiset(items)[i] else 0 {
      FilterMultiplicity(items, keep, i);
    }
    FilterIsSubsequence(items, keep);
    Filter(items, keep)
  }

  /** The quantity field: `parseInt(value) || 1`, where `parsed` is None for
      NaN. */
  function QuantityInput(parsed: Option<int>): (q: int)
    ensures q != 0
    ensures parsed.Some? && parsed.value != 0 ==> q == parsed.value
    ensures parsed.None? || parsed == Some(0) ==> q == 1
  {
    if parsed.Some? && parsed.value != 0 then parsed.value else 1
  }

  /** The unit-price and discount fields: `parseFloat(value) || 0`. */
  function AmountInput(parsed: Option<int>): (a: int)
    ensures a == parsed.GetOr(0)
  {
    if parsed.Some? && parsed.value != 0 then parsed.value else 0
  }

  /** The showcase `saveShowcase` writes. `||` falls back to a fresh id only
      for a missing or empty id; status and `createdAt` are kept when there
      is a showcase. The source reads the clock three times: `idTime` for
      the fresh id, `createdNow` for the fallback `createdAt` and `now` for
      `updatedAt`. The send, view and response times are not carried
      over. */
  function Saved(current: Option<Showcase>, projectId: string, title: string, introduction: string,
                 items: seq<ShowcaseItem>, discount: int, notes: string,
                 idTime: Instant, createdNow: Instant, now: Instant): Showcase
  {
    var total := ItemsTotal(items);
    Showcase(
      if current.Some? && current.value.id != "" then current.value.id else "showcase-" + IntText(idTime),
      projectId, title, introduction, items, total, Some(discount), total - discount, Some(notes),
      if current.Some? then current.value.status else ShowcaseStatus.Draft,
      None, None, None,
      if current.Some? then current.value.createdAt else createdNow,
      now)
  }

  /** `sendShowcase`'s update: status, `sentAt` and `updatedAt`, two clock
      readings. */
  function SentFrom(s: Showcase, sentAt: Instant, updatedAt: Instant): Showcase {
    s.(status := ShowcaseStatus.Sent, sentAt := Some(sentAt), updatedAt := updatedAt)
  }

  /** What the editor shows. */
  datatype View = CreatePrompt | EditForm | Details(offersEditAndSend: bool)

  class Editor {
    const projectId: string
    const projectName: string
    const clientName: string
    var isEditing: bool
    var showcase: Option<Showcase>
    var editingItemId: Option<string>
    var title: string
    var introduction: string
    var items: seq<ShowcaseItem>
    var discount: int
    var notes: string

    /** The form starts from the showcase's fields, with `||` fallbacks for
        empty ones, and in edit mode only when there is no showcase. */
    constructor(initial: Option<Showcase>, projectId: string, projectName: string, clientName: string)
      ensures this.projectId == projectId && this.projectName == projectName && this.clientName == clientName
      ensures isEditing == initial.None? && showcase == initial && editingItemId == None
      ensures title == if initial.Some? && initial.value.title != "" then initial.value.title
                       else projectName + " - Proje Teklifi"
      ensures introduction == if initial.Some? && initial.value.introduction != "" then initial.value.introduction
                              else clientName + " için hazırlanan proje teklifimizi aşağıda bulabilirsiniz."
      ensures items == if initial.Some? then initial.value.items else []
      ensures discount == if initial.Some? then initial.value.discount.GetOr(0) else 0
      ensures notes == if initial.Some? && initial.value.notes.GetOr("") != "" then initial.value.notes.value else ""
    {
      this.projectId := projectId;
      this.projectName := projectName;
      this.clientName := clientName;
      isEditing := initial.None?;
      showcase := initial;
      editingItemId := None;
      title := if initial.Some? && initial.value.title != "" then initial.value.title
               else projectName + " - Proje Teklifi";
      introduction := if initial.Some? && initial.value.introduction != "" then initial.value.introduction
                      else clientName + " için hazırlanan proje teklifimizi aşağıda bulabilirsiniz.";
      items := if initial.Some? then initial.value.items else [];
      discount := if initial.Some? then initial.value.discount.GetOr(0) else 0;
      notes := if initial.Some? && initial.value.notes.GetOr("") != "" then initial.value.notes.value else "";
    }

    function TotalAmount(): int
      reads this
    {
      ItemsTotal(items)
    }

    function FinalAmount(): int
      reads this
    {
      TotalAmount() - discount
    }

    /** Edit and Send are offered only on the details of a draft. */
    function CurrentView(): (v: View)
      reads this
      ensures v == CreatePrompt <==> showcase.None? && !isEditing
      ensures v == EditForm <==> isEditing
      ensures v.Details? ==> showcase.Some? && (v.offersEditAndSend <==> showcase.value.status == ShowcaseStatus.Draft)
    {
      if showcase.None? && !isEditing then CreatePrompt
      else if isEditing then EditForm
      else Details(showcase.value.status == ShowcaseStatus.Draft)
    }

    method AddItem(now: Instant)
      modifies this`items, this`editingItemId
      ensures items == old(items) + [NewItem(now)] && editingItemId == Some(NewItem(now).id)
    {
      items := items + [NewItem(now)];
      editingItemId := Some(NewItem(now).id);
    }

    method UpdateItem(id: string, q: ItemPatch)
      modifies this`items
      ensures items == UpdateItems(old(items), id, q)
    {
      items := UpdateItems(items, id, q);
    }

    method DeleteItem(id: string)
      modifies this`items
      ensures items == DeleteItems(old(items), id)
    {
      items := DeleteItems(items, id);
    }

    method SetQuantity(id: string, parsed: Option<int>)
      modifies this`items
      ensures items == UpdateItems(old(items), id, ItemPatch(None, None, None, Some(QuantityInput(parsed)), None, None))
    {
      UpdateItem(id, ItemPatch(None, None, None, Some(QuantityInput(parsed)), None, None));
    }

    method SetUnitPrice(id: string, parsed: Option<int>)
      modifies this`items
      ensures items == UpdateItems(old(items), id, ItemPatch(None, None, None, None, Some(AmountInput(parsed)), None))
    {
      UpdateItem(id, ItemPatch(None, None, None, None, Some(AmountInput(parsed)), None));
    }

    method SetDiscount(parsed: Option<int>)
      modifies this`discount
      ensures discount == AmountInput(parsed)
    {
      discount := AmountInput(parsed);
    }

    method StartEditing()
      modifies this`isEditing
      ensures isEditing
    {
      isEditing := true;
    }

    /** Cancel leaves edit mode and keeps the form as it is. */
    method Cancel()
      modifies this`isEditing
      ensures !isEditing
    {
      isEditing := false;
    }

    method SaveShowcase(idTime: Instant, createdNow: Instant, now: Instant)
      modifies this`showcase, this`isEditing
      ensures showcase == Some(Saved(old(showcase), projectId, title, introduction, items, discount, notes, idTime, createdNow, now))
      ensures !isEditing
    {
      showcase := Some(Saved(showcase, projectId, title, introduction, items, discount, notes, idTime, createdNow, now));
      isEditing := false;
    }

    /** Without a showcase nothing happens; the status is not checked. */
    method SendShowcase(sentAt: Instant, updatedAt: Instant)
      modifies this`showcase
      ensures showcase == if old(showcase).Some? then Some(SentFrom(old(showcase).value, sentAt, updatedAt)) else None
    {
      if showcase.Some? {
        showcase := Some(SentFrom(showcase.value, sentAt, updatedAt));
      }
    }
  }

  // ------------------------------------------------------------------ lemmas

  /** A new item is worth nothing, so adding it keeps the total. */
  lemma AddItemKeepsTotal(items: seq<ShowcaseItem>, now: Instant)
    ensures ItemsTotal(items + [NewItem(now)]) == ItemsTotal(items)
  {
    SumAppend(items, [NewItem(now)], MockData.ShowcaseLine);
  }

  /** An edit that touches neither quantity nor price keeps the total. */
  lemma UpdateItemKeepsTotal(items: seq<ShowcaseItem>, id: string, q: ItemPatch)
    requires q.quantity.None? && q.unitPrice.None?
    ensures ItemsTotal(UpdateItems(items, id, q)) == ItemsTotal(items)
  {
    SumMapWhere(items, (i: ShowcaseItem) => i.id == id, (i: ShowcaseItem) => MergeItem(i, q), MockData.ShowcaseLine);
  }

  /** A delete takes exactly the deleted items' worth off the total. */
  lemma DeleteItemTotal(items: seq<ShowcaseItem>, id: string)
    ensures ItemsTotal(DeleteItems(items, id))
            == ItemsTotal(items) - ItemsTotal(Filter(items, ItemWithId(id)))
  {
    var keep := ItemWithoutId(id);
    SumFilterSplit(items, keep, MockData.ShowcaseLine);
    FilterSame(items, x => !keep(x), ItemWithId(id));
  }

  /** Whatever was typed, a saved showcase's totals agree with its items and
      its discount, the same rule every seeded showcase satisfies. */
  lemma SavedTotals(current: Option<Showcase>, projectId: string, title: string, introduction: string,
                    items: seq<ShowcaseItem>, discount: int, notes: string,
                    idTime: Instant, createdNow: Instant, now: Instant)
    ensures MockData.TotalsConsistent(Saved(current, projectId, title, introduction, items, discount, notes, idTime, createdNow, now))
  {
  }

  /** Saving keeps the identity, status and creation time of an existing
      showcase with an id; a first save is a fresh draft created at its own
      clock reading, which is the update time only when both readings fall
      in one millisecond. Either way it was updated now and carries no send,
      view or response time. */
  lemma SaveIdentity(current: Option<Showcase>, projectId: string, title: string, introduction: string,
                     items: seq<ShowcaseItem>, discount: int, notes: string,
                     idTime: Instant, createdNow: Instant, now: Instant)
    ensures var s := Saved(current, projectId, title, introduction, items, discount, notes, idTime, createdNow, now);
            s.updatedAt == now && s.sentAt.None? && s.viewedAt.None? && s.respondedAt.None?
            && s.projectId == projectId && s.items == items
            && (current.Some? && current.value.id != "" ==>
                  s.id == current.value.id && s.status == current.value.status && s.createdAt == current.value.createdAt)
            && (current.None? ==> s.id == "showcase-" + IntText(idTime) && s.status == ShowcaseStatus.Draft
                                   && s.createdAt == createdNow && (s.createdAt == s.updatedAt <==> createdNow == now))
  {
  }

  /** Sending changes only status, `sentAt` and `updatedAt`, and a sent
      showcase no longer offers Edit and Send. */
  lemma SendChangesOnlyStatusAndTimes(s: Showcase, t1: Instant, t2: Instant)
    ensures var r := SentFrom(s, t1, t2);
            r.(status := s.status, sentAt := s.sentAt, updatedAt := s.updatedAt) == s
            && r.status == ShowcaseStatus.Sent && r.sentAt == Some(t1) && r.updatedAt == t2
            && r.status != ShowcaseStatus.Draft
  {
  }
}
