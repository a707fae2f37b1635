/** The raw-material page app/bahan-baku/page.tsx: the material form (add or edit), the manual
    stock-movement form, the stock-status filter with name search, the low-stock badge, and the
    transaction history with its material label, search and type filter. */
module MaterialsPage {
  import opened Seqs
  import opened Text
  import opened Entities
  import opened MaterialLedger

  /** The material form's fields. */
  datatype MaterialForm = MaterialForm(name: string, unit: string, pricePerUnit: real, stock: real, minStock: real)

  /** handleAddMaterial: with a material being edited (a non-empty id), every form field is
      written into it; otherwise the form is added as a new material. */
  function HandleAddMaterial(s: AppState, form: MaterialForm, editingId: Option<Id>, newId: Id): (next: AppState)
    ensures editingId.Some? && editingId.value != "" ==>
              && |next.materials| == |s.materials|
              && forall k :: 0 <= k < |s.materials| ==>
                   next.materials[k] == if s.materials[k].id == editingId.value
                                        then Material(s.materials[k].id, form.name, form.unit, form.pricePerUnit,
                                                      form.stock, form.minStock)
                                        else s.materials[k]
    ensures !(editingId.Some? && editingId.value != "") ==>
              next.materials == s.materials + [Material(newId, form.name, form.unit, form.pricePerUnit, form.stock, form.minStock)]
    ensures next.(materials := s.materials) == s
  {
    if editingId.Some? && editingId.value != "" then
      UpdateMaterial(s, editingId.value, MaterialPatch(Some(form.name), Some(form.unit), Some(form.pricePerUnit),
                                                        Some(form.stock), Some(form.minStock)))
    else
      AddMaterial(s, Material("", form.name, form.unit, form.pricePerUnit, form.stock, form.minStock), newId)
  }

  /** handleAddTransaction: nothing without a selected material; otherwise one movement of the
      chosen type, quantity and note, stamped `now`, is recorded. */
  function HandleAddTransaction(s: AppState, selectedMaterialId: Id, txType: TxType, quantity: real, note: string,
                                now: string, newId: Id): (next: AppState)
    ensures selectedMaterialId == "" ==> next == s
    ensures selectedMaterialId != "" ==>
              next.materialTransactions
              == s.materialTransactions + [MaterialTransaction(newId, selectedMaterialId, txType, quantity, now, note)]
    ensures |next.materials| == |s.materials|
    ensures selectedMaterialId != "" ==>
              forall k :: 0 <= k < |s.materials| && s.materials[k].id == selectedMaterialId ==>
                next.materials[k].stock == s.materials[k].stock + (if txType == In then quantity else -quantity)
  {
    if selectedMaterialId == "" then s
    else AddMaterialTransaction(s, MaterialTransaction("", selectedMaterialId, txType, quantity, now, note), newId)
  }

  /** The stock-status select: 'all' keeps everything, 'aman' keeps materials above their
      minimum, and any other value keeps those at or below it. */
  predicate StockMatches(m: Material, stockFilter: string)
  {
    if stockFilter == "all" then true
    else if stockFilter == "aman" then m.stock > m.minStock
    else m.stock <= m.minStock
  }

  /** `filteredMaterials`: name search AND stock status. */
  function FilteredMaterials(ms: seq<Material>, searchTerm: string, stockFilter: string): (r: seq<Material>)
    ensures forall k :: 0 <= k < |r| ==> r[k] in ms && Matches(r[k].name, searchTerm) && StockMatches(r[k], stockFilter)
    ensures forall k :: 0 <= k < |ms| && Matches(ms[k].name, searchTerm) && StockMatches(ms[k], stockFilter) ==>
              ms[k] in r
  {
    FilterMembers(ms, (m: Material) => Matches(m.name, searchTerm) && StockMatches(m, stockFilter));
    Filter(ms, (m: Material) => Matches(m.name, searchTerm) && StockMatches(m, stockFilter))
  }

  /** 'aman' and 'menipis' split the searched list in two; 'all' with an empty search shows
      every material. */
  lemma StockFiltersPartition(ms: seq<Material>, searchTerm: string)
    ensures |FilteredMaterials(ms, searchTerm, "aman")| + |FilteredMaterials(ms, searchTerm, "menipis")|
         == |FilteredMaterials(ms, searchTerm, "all")|
    ensures FilteredMaterials(ms, "", "all") == ms
  {
    var all := FilteredMaterials(ms, searchTerm, "all");
    var aman := (m: Material) => Matches(m.name, searchTerm) && StockMatches(m, "aman");
    var menipis := (m: Material) => Matches(m.name, searchTerm) && StockMatches(m, "menipis");
    var byName := (m: Material) => Matches(m.name, searchTerm);
    FilterSameOn(ms, (m: Material) => Matches(m.name, searchTerm) && StockMatches(m, "all"), byName);
    FilterNested(ms, byName, (m: Material) => m.stock > m.minStock, aman);
    FilterNested(ms, byName, (m: Material) => m.stock <= m.minStock, menipis);
    FilterSplit(all, (m: Material) => m.stock > m.minStock, (m: Material) => m.stock <= m.minStock);
    forall k | 0 <= k < |ms| ensures Matches(ms[k].name, "") && StockMatches(ms[k], "all") {
      EmptyQueryMatches(ms[k].name);
    }
    FilterKeepsAll(ms, (m: Material) => Matches(m.name, "") && StockMatches(m, "all"));
  }

  /** Filtering by `p` and then by `q` is filtering by both. */
  lemma {:induction false} FilterNested(ms: seq<Material>, p: Material -> bool, q: Material -> bool, both: Material -> bool)
    requires forall m :: both(m) == (p(m) && q(m))
    ensures Filter(Filter(ms, p), q) == Filter(ms, both)
  {
    if ms != [] {
      FilterNested(ms[1..], p, q, both);
      var head := if p(ms[0]) then [ms[0]] else [];
      FilterConcat(head, Filter(ms[1..], p), q);
      if p(ms[0]) {
        FilterSingleton(ms[0], q);
      }
    }
  }

  /** The 'Menipis' badge of the material table. It agrees with the stock filters: a material
      shows it exactly when the 'menipis' filter lists it and the 'aman' filter does not. */
  predicate Badge(m: Material): (shown: bool)
    ensures shown <==> StockMatches(m, "menipis")
    ensures shown <==> !StockMatches(m, "aman")
  {
    m.stock <= m.minStock
  }

  /** `material?.name || 'Bahan Dihapus'` */
  function MaterialLabel(ms: seq<Material>, t: MaterialTransaction): (r: string)
    ensures FindMaterial(ms, t.materialId).None? ==> r == "Bahan Dihapus"
    ensures r != ""
  {
    match FindMaterial(ms, t.materialId)
    case Some(m) => if m.name != "" then m.name else "Bahan Dihapus"
    case None => "Bahan Dihapus"
  }

  function TxTypeName(t: TxType): string
  {
    if t == In then "in" else "out"
  }

  /** The history row test: label or (non-empty) note matches the search, AND the type matches. */
  predicate TxMatches(ms: seq<Material>, t: MaterialTransaction, search: string, typeFilter: string)
  {
    (Matches(MaterialLabel(ms, t), search) || (t.note != "" && Matches(t.note, search)))
    && (typeFilter == "all" || TxTypeName(t.txType) == typeFilter)
  }

  /** `filteredTransactions` */
  function FilteredTransactions(s: AppState, search: string, typeFilter: string): (r: seq<MaterialTransaction>)
    ensures forall k :: 0 <= k < |r| ==> r[k] in s.materialTransactions && TxMatches(s.materials, r[k], search, typeFilter)
    ensures forall k :: 0 <= k < |s.materialTransactions| && TxMatches(s.materials, s.materialTransactions[k], search, typeFilter) ==>
              s.materialTransactions[k] in r
  {
    FilterMembers(s.materialTransactions, (t: MaterialTransaction) => TxMatches(s.materials, t, search, typeFilter));
    Filter(s.materialTransactions, (t: MaterialTransaction) => TxMatches(s.materials, t, search, typeFilter))
  }

  /** The type filter keeps only movements of that type, and with 'all' and an empty search
      the whole history is shown. */
  lemma TransactionFilters(s: AppState)
    ensures forall k :: 0 <= k < |FilteredTransactions(s, "", "in")| ==> FilteredTransactions(s, "", "in")[k].txType == In
    ensures forall k :: 0 <= k < |FilteredTransactions(s, "", "out")| ==> FilteredTransactions(s, "", "out")[k].txType == Out
    ensures FilteredTransactions(s, "", "all") == s.materialTransactions
  {
    forall k | 0 <= k < |s.materialTransactions| ensures TxMatches(s.materials, s.materialTransactions[k], "", "all") {
      EmptyQueryMatches(MaterialLabel(s.materials, s.materialTransactions[k]));
    }
    FilterKeepsAll(s.materialTransactions, (t: MaterialTransaction) => TxMatches(s.materials, t, "", "all"));
  }
}
