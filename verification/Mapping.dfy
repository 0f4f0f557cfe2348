/** Listing-to-variant mapping with its history, and the automatic linkage by a valid seller article. */
module Mapping {
  import opened Common
  import Sku

  datatype ProductStatus = Live | Inactive | Archived

  datatype ReviewState = ManualConfirmed | ImportedDraft | ReviewNeeded

  datatype Product = Product(code: string, name: string, status: ProductStatus)

  datatype Variant = Variant(product: nat, sku: string, name: string, status: ProductStatus, review: ReviewState)

  datatype MappingStatus = Unmatched | Matched | NeedsReview | Conflict | ArchivedMapping

  datatype Mapped = Mapped(variant: Option<nat>, status: MappingStatus)

  datatype Listing = Listing(article: string, title: string, mapping: Mapped)

  datatype Action = MapAction | UnmapAction | ReviewMarker | ConflictMarker

  /** A row of a listing's mapping history. */
  datatype Record = Record(action: Action, after: MappingStatus, previous: Option<nat>, target: Option<nat>)

  datatype State = State(products: map<nat, Product>, variants: map<nat, Variant>, listings: map<nat, Listing>,
                         history: map<nat, seq<Record>>, nextProduct: nat, nextVariant: nat, nextListing: nat)

  /** `handle` is the mapping of the caller's listing object, and `seen` that whole object; the stored row may have left
      either behind. */
  datatype Command =
    | AddProduct(code: string, name: string)
    | AddVariant(product: nat, sku: string, name: string)
    | EditVariant(variant: nat, sku: string, name: string, status: ProductStatus)
    | EditProduct(product: nat, name: string, status: ProductStatus)
    | NewListing(article: string, title: string)
    | UpdateListing(listing: nat, article: string, title: string)
    | Change(listing: nat, handle: Mapped, action: Action, target: Option<nat>, unmapTo: Option<MappingStatus>)
    | Refresh(listing: nat, handle: Mapped, candidates: set<nat>)
    | ApiLink(listing: nat, seen: Listing)

  const CODE_LENGTH := 64
  const SKU_LENGTH := 128

  const UNMAPPED := Mapped(None, Unmatched)

  const EMPTY := State(map[], map[], map[], map[], 1, 1, 1)

  // ---------- products and variants ----------

  function Coded(products: map<nat, Product>, code: string): set<nat> {
    set p | p in products && products[p].code == code
  }

  function Holding(variants: map<nat, Variant>, sku: string): set<nat> {
    set v | v in variants && variants[v].sku == sku
  }

  predicate CodeFree(products: map<nat, Product>, code: string) {
    code != "" && |code| <= CODE_LENGTH && Coded(products, code) == {}
  }

  predicate SkuFree(variants: map<nat, Variant>, sku: string, except: set<nat>) {
    |sku| <= SKU_LENGTH && (sku == "" || Holding(variants, sku) <= except)
  }

  function WithProduct(s: State, code: string, name: string): State {
    s.(products := s.products[s.nextProduct := Product(code, name, Live)], nextProduct := s.nextProduct + 1)
  }

  function WithVariant(s: State, product: nat, sku: string, name: string, review: ReviewState): State {
    s.(variants := s.variants[s.nextVariant := Variant(product, sku, name, Live, review)],
       nextVariant := s.nextVariant + 1)
  }

  function EditingVariant(s: State, v: nat, sku: string, name: string, status: ProductStatus): Result<State> {
    if v in s.variants && SkuFree(s.variants, sku, {v}) then
      Ok(s.(variants := s.variants[v := s.variants[v].(sku := sku, name := name, status := status)]))
    else Raised
  }

  function EditingProduct(s: State, p: nat, name: string, status: ProductStatus): Result<State> {
    if p in s.products then Ok(s.(products := s.products[p := s.products[p].(name := name, status := status)]))
    else Raised
  }

  // ---------- listings: a source upsert leaves the mapping alone ----------

  predicate Known(s: State, l: nat) { l in s.listings && l in s.history }

  function WithListing(s: State, article: string, title: string): State {
    s.(listings := s.listings[s.nextListing := Listing(article, title, UNMAPPED)],
       history := s.history[s.nextListing := []], nextListing := s.nextListing + 1)
  }

  function UpdatingListing(s: State, l: nat, article: string, title: string): Result<State> {
    if Known(s, l) then Ok(s.(listings := s.listings[l := s.listings[l].(article := article, title := title)]))
    else Raised
  }

  // ---------- writing a mapping and its history row ----------

  function Write(s: State, l: nat, mapping: Mapped, record: Record): State
    requires Known(s, l)
  {
    s.(listings := s.listings[l := s.listings[l].(mapping := mapping)],
       history := s.history[l := s.history[l] + [record]])
  }

  /** What a manual change makes of the handle, if it is allowed. */
  function Changed(handle: Mapped, action: Action, target: Option<nat>,
                   unmapTo: Option<MappingStatus>): Result<Mapped> {
    match action
    case MapAction => if target.Some? then Ok(Mapped(target, Matched)) else Raised
    case UnmapAction =>
      var after := if unmapTo.Some? then unmapTo.value else Unmatched;
      if after.Unmatched? || after.NeedsReview? || after.Conflict? then Ok(Mapped(None, after)) else Raised
    case ReviewMarker => Ok(handle.(status := NeedsReview))
    case ConflictMarker => Ok(handle.(status := Conflict))
  }

  predicate Present(variants: map<nat, Variant>, v: Option<nat>) { v.Some? ==> v.value in variants }

  function Changing(s: State, l: nat, handle: Mapped, action: Action, target: Option<nat>,
                    unmapTo: Option<MappingStatus>): Result<State> {
    var mapping := Changed(handle, action, target, unmapTo);
    if !Known(s, l) || !Present(s.variants, handle.variant) || !Present(s.variants, target) || mapping.Raised?
      then Raised
    else Ok(Write(s, l, mapping.value, Record(action, mapping.value.status, handle.variant, target)))
  }

  function Refreshing(s: State, l: nat, handle: Mapped, candidates: set<nat>): Result<State> {
    if handle.variant.Some? || handle.status.ArchivedMapping? || candidates == {} then Ok(s)
    else if |candidates| > 1 then
      if handle.status.Conflict? then Ok(s) else Changing(s, l, handle, ConflictMarker, None, None)
    else if handle.status.NeedsReview? || handle.status.Conflict? then Ok(s)
    else Changing(s, l, handle, ReviewMarker, None, None)
  }

  // ---------- automatic linkage ----------

  datatype Resolution = One(id: nat) | Missing | Unsafe

  /** One safe row and no unsafe one, none at all, or anything else. */
  function Resolve(all: set<nat>, safe: set<nat>): Resolution {
    if |safe| == 1 && safe == all then One(Min(safe)) else if all == {} then Missing else Unsafe
  }

  predicate SafeVariant(s: State, v: nat) {
    v in s.variants && s.variants[v].status.Live? && s.variants[v].product in s.products
    && s.products[s.variants[v].product].status.Live?
  }

  function ResolveVariant(s: State, sku: string): Resolution {
    var all := Holding(s.variants, sku);
    Resolve(all, set v | v in all && SafeVariant(s, v))
  }

  function ResolveParent(s: State, sku: string): Resolution {
    var all := Coded(s.products, sku);
    Resolve(all, set p | p in all && s.products[p].status.Live?)
  }

  /** Saves the status alone, so the stored variant stays; the record tells the variant of the caller's object. */
  function MarkConflict(s: State, l: nat, seen: Mapped): State
    requires Known(s, l)
  {
    if seen.status.Conflict? then s
    else Write(s, l, s.listings[l].mapping.(status := Conflict),
               Record(ConflictMarker, Conflict, seen.variant, seen.variant))
  }

  /** The incoming title is neither the variant's nor the product's name. */
  predicate TitleDiffers(s: State, v: nat, title: string)
    requires v in s.variants
  {
    var p := s.variants[v].product;
    title != "" && title != s.variants[v].name && !(p in s.products && title == s.products[p].name)
  }

  function Reviewed(s: State, v: nat, title: string): State
    requires v in s.variants
  {
    if TitleDiffers(s, v, title) then s.(variants := s.variants[v := s.variants[v].(review := ReviewNeeded)]) else s
  }

  function Link(s: State, l: nat, seen: Listing, v: nat): State
    requires Known(s, l) && v in s.variants
  {
    var m := seen.mapping;
    if m.variant.Some? && m.variant.value != v then MarkConflict(s, l, m)
    else Reviewed(Write(s, l, Mapped(Some(v), Matched), Record(MapAction, Matched, m.variant, Some(v))), v,
                  Strip(seen.title))
  }

  function NameFor(title: string, sku: string): string { if title != "" then title else sku }

  /** The variant for a SKU nobody holds, under the product of that code, created when there is none. */
  function CreateFor(s: State, sku: string, title: string): Result<State> {
    var name := NameFor(title, sku);
    match ResolveParent(s, sku)
    case One(p) => if |sku| <= SKU_LENGTH then Ok(WithVariant(s, p, sku, name, ImportedDraft)) else Raised
    case Missing =>
      if |sku| <= CODE_LENGTH then Ok(WithVariant(WithProduct(s, sku, name), s.nextProduct, sku, name, ImportedDraft))
      else Raised
    case Unsafe => Raised
  }

  predicate HoldsOther(s: State, seen: Listing, sku: string) {
    var v := seen.mapping.variant;
    v.Some? && !(v.value in s.variants && s.variants[v.value].sku == sku)
  }

  function LinkBySku(s: State, l: nat, seen: Listing, sku: string): Result<State>
    requires Known(s, l)
  {
    if sku == "" then Ok(s)
    else if HoldsOther(s, seen, sku) then Ok(MarkConflict(s, l, seen.mapping))
    else
      match ResolveVariant(s, sku)
      case Unsafe => Ok(MarkConflict(s, l, seen.mapping))
      case One(v) => if v in s.variants then Ok(Link(s, l, seen, v)) else Raised
      case Missing =>
        if ResolveParent(s, sku).Unsafe? then Ok(MarkConflict(s, l, seen.mapping))
        else
          var t := CreateFor(s, sku, Strip(seen.title));
          if t.Raised? then Raised else Ok(Link(t.value, l, seen, s.nextVariant))
  }

  /** Linkage by the article of the caller's listing object. */
  function ApiLinking(s: State, l: nat, seen: Listing): Result<State> {
    if Known(s, l) && Present(s.variants, seen.mapping.variant)
      then LinkBySku(s, l, seen, Sku.ValidApiSku(seen.article)) else Raised
  }

  // ---------- runs ----------

  function Step(s: State, c: Command): Result<State> {
    match c
    case AddProduct(code, name) => if CodeFree(s.products, code) then Ok(WithProduct(s, code, name)) else Raised
    case AddVariant(product, sku, name) =>
      if product in s.products && SkuFree(s.variants, sku, {})
        then Ok(WithVariant(s, product, sku, name, ManualConfirmed)) else Raised
    case EditVariant(v, sku, name, status) => EditingVariant(s, v, sku, name, status)
    case EditProduct(p, name, status) => EditingProduct(s, p, name, status)
    case NewListing(article, title) => Ok(WithListing(s, article, title))
    case UpdateListing(l, article, title) => UpdatingListing(s, l, article, title)
    case Change(l, handle, action, target, unmapTo) => Changing(s, l, handle, action, target, unmapTo)
    case Refresh(l, handle, candidates) => Refreshing(s, l, handle, candidates)
    case ApiLink(l, seen) => ApiLinking(s, l, seen)
  }

  /** A step that raises is rolled back. */
  function Next(s: State, c: Command): State { var r := Step(s, c); if r.Ok? then r.value else s }

  function Run(commands: seq<Command>): State {
    if commands == [] then EMPTY else Next(Run(commands[..|commands| - 1]), commands[|commands| - 1])
  }

  // ---------- what every run keeps ----------

  ghost predicate UniqueCodes(s: State) {
    && (forall p :: p in s.products ==> p < s.nextProduct && |s.products[p].code| <= CODE_LENGTH)
    && forall p, q :: p in s.products && q in s.products && s.products[p].code == s.products[q].code ==> p == q
  }

  ghost predicate UniqueSkus(s: State) {
    && (forall v :: v in s.variants ==> v < s.nextVariant && s.variants[v].product in s.products)
    && forall v, w :: v in s.variants && w in s.variants && s.variants[v].sku == s.variants[w].sku != "" ==> v == w
  }

  /** A matched listing has a variant, and every mapped variant exists. */
  ghost predicate MappedSoundly(s: State) {
    && s.history.Keys == s.listings.Keys && s.nextListing !in s.listings
    && (forall l :: l in s.listings ==> l < s.nextListing)
    && forall l :: l in s.listings ==>
         Present(s.variants, s.listings[l].mapping.variant)
         && (s.listings[l].mapping.status.Matched? ==> s.listings[l].mapping.variant.Some?)
  }

  ghost predicate Inv(s: State) { UniqueCodes(s) && UniqueSkus(s) && MappedSoundly(s) }

  lemma WithProductKeepsInv(s: State, code: string, name: string)
    requires Inv(s) && CodeFree(s.products, code)
    ensures Inv(WithProduct(s, code, name))
  {
    forall p | p in s.products ensures s.products[p].code != code { assert p !in Coded(s.products, code); }
  }

  lemma WithVariantKeepsInv(s: State, product: nat, sku: string, name: string, review: ReviewState)
    requires Inv(s) && product in s.products && SkuFree(s.variants, sku, {})
    ensures Inv(WithVariant(s, product, sku, name, review))
  {
    forall v | v in s.variants ensures sku == "" || s.variants[v].sku != sku {
      assert sku != "" ==> v !in Holding(s.variants, sku);
    }
  }

  lemma EditVariantKeepsInv(s: State, v: nat, sku: string, name: string, status: ProductStatus)
    requires Inv(s) && EditingVariant(s, v, sku, name, status).Ok?
    ensures Inv(EditingVariant(s, v, sku, name, status).value)
  {
    forall w | w in s.variants && w != v ensures sku == "" || s.variants[w].sku != sku {
      assert sku != "" && s.variants[w].sku == sku ==> w in Holding(s.variants, sku);
    }
  }

  lemma EditProductKeepsInv(s: State, p: nat, name: string, status: ProductStatus)
    requires Inv(s) && EditingProduct(s, p, name, status).Ok?
    ensures Inv(EditingProduct(s, p, name, status).value)
  {
  }

  lemma WriteKeepsInv(s: State, l: nat, mapping: Mapped, record: Record)
    requires Inv(s) && Known(s, l) && Present(s.variants, mapping.variant)
    requires mapping.status.Matched? ==> mapping.variant.Some?
    ensures Inv(Write(s, l, mapping, record))
  {
  }

  lemma ChangeKeepsInv(s: State, l: nat, handle: Mapped, action: Action, target: Option<nat>,
                       unmapTo: Option<MappingStatus>)
    requires Inv(s) && Changing(s, l, handle, action, target, unmapTo).Ok?
    ensures Inv(Changing(s, l, handle, action, target, unmapTo).value)
  {
    var mapping := Changed(handle, action, target, unmapTo).value;
    WriteKeepsInv(s, l, mapping, Record(action, mapping.status, handle.variant, target));
  }

  lemma RefreshKeepsInv(s: State, l: nat, handle: Mapped, candidates: set<nat>)
    requires Inv(s) && Refreshing(s, l, handle, candidates).Ok?
    ensures Inv(Refreshing(s, l, handle, candidates).value)
  {
    if Changing(s, l, handle, ConflictMarker, None, None).Ok? {
      ChangeKeepsInv(s, l, handle, ConflictMarker, None, None);
    }
    if Changing(s, l, handle, ReviewMarker, None, None).Ok? { ChangeKeepsInv(s, l, handle, ReviewMarker, None, None); }
  }

  lemma NewListingKeepsInv(s: State, article: string, title: string)
    requires Inv(s)
    ensures Inv(WithListing(s, article, title))
  {
  }

  lemma UpdateListingKeepsInv(s: State, l: nat, article: string, title: string)
    requires Inv(s) && UpdatingListing(s, l, article, title).Ok?
    ensures Inv(UpdatingListing(s, l, article, title).value)
  {
  }

  lemma MarkKeepsInv(s: State, l: nat, seen: Mapped)
    requires Inv(s) && Known(s, l)
    ensures Inv(MarkConflict(s, l, seen))
  {
    WriteKeepsInv(s, l, s.listings[l].mapping.(status := Conflict),
                  Record(ConflictMarker, Conflict, seen.variant, seen.variant));
  }

  lemma ReviewedKeepsInv(s: State, v: nat, title: string)
    requires Inv(s) && v in s.variants
    ensures Inv(Reviewed(s, v, title))
  {
  }

  lemma LinkKeepsInv(s: State, l: nat, seen: Listing, v: nat)
    requires Inv(s) && Known(s, l) && v in s.variants
    ensures Inv(Link(s, l, seen, v))
  {
    MarkKeepsInv(s, l, seen.mapping);
    var record := Record(MapAction, Matched, seen.mapping.variant, Some(v));
    WriteKeepsInv(s, l, Mapped(Some(v), Matched), record);
    ReviewedKeepsInv(Write(s, l, Mapped(Some(v), Matched), record), v, Strip(seen.title));
  }

  lemma ResolveMeaning(all: set<nat>, safe: set<nat>)
    requires safe <= all
    ensures Resolve(all, safe).Missing? <==> all == {}
    ensures Resolve(all, safe).One? ==> Resolve(all, safe).id in safe && all == {Resolve(all, safe).id}
  {
    if Resolve(all, safe).One? {
      var m := Min(safe);
      assert |safe - {m}| == 0;
      assert forall x :: x in safe ==> x == m || x in safe - {m};
    }
  }

  lemma CreateKeepsInv(s: State, sku: string, title: string)
    requires Inv(s) && sku != "" && Holding(s.variants, sku) == {} && CreateFor(s, sku, title).Ok?
    ensures Inv(CreateFor(s, sku, title).value)
  {
    var all := Coded(s.products, sku);
    ResolveMeaning(all, set p | p in all && s.products[p].status.Live?);
    var name := NameFor(title, sku);
    if all == {} {
      WithProductKeepsInv(s, sku, name);
      WithVariantKeepsInv(WithProduct(s, sku, name), s.nextProduct, sku, name, ImportedDraft);
    } else {
      WithVariantKeepsInv(s, ResolveParent(s, sku).id, sku, name, ImportedDraft);
    }
  }

  lemma VariantResolution(s: State, sku: string)
    ensures ResolveVariant(s, sku).Missing? <==> Holding(s.variants, sku) == {}
    ensures ResolveVariant(s, sku).One? ==>
              SafeVariant(s, ResolveVariant(s, sku).id) && Holding(s.variants, sku) == {ResolveVariant(s, sku).id}
  {
    var all := Holding(s.variants, sku);
    ResolveMeaning(all, set v | v in all && SafeVariant(s, v));
  }

  lemma LinkBySkuKeepsInv(s: State, l: nat, seen: Listing, sku: string)
    requires Inv(s) && Known(s, l) && LinkBySku(s, l, seen, sku).Ok?
    ensures Inv(LinkBySku(s, l, seen, sku).value)
  {
    VariantResolution(s, sku);
    MarkKeepsInv(s, l, seen.mapping);
    var r := ResolveVariant(s, sku);
    if sku == "" || HoldsOther(s, seen, sku) || r.Unsafe? {
    } else if r.One? {
      LinkKeepsInv(s, l, seen, r.id);
    } else if !ResolveParent(s, sku).Unsafe? {
      var title := Strip(seen.title);
      CreateKeepsInv(s, sku, title);
      LinkKeepsInv(CreateFor(s, sku, title).value, l, seen, s.nextVariant);
    }
  }

  lemma StepKeepsInv(s: State, c: Command)
    requires Inv(s) && Step(s, c).Ok?
    ensures Inv(Step(s, c).value)
  {
    match c
    case AddProduct(code, name) => WithProductKeepsInv(s, code, name);
    case AddVariant(product, sku, name) => WithVariantKeepsInv(s, product, sku, name, ManualConfirmed);
    case EditVariant(v, sku, name, status) => EditVariantKeepsInv(s, v, sku, name, status);
    case EditProduct(p, name, status) => EditProductKeepsInv(s, p, name, status);
    case NewListing(article, title) => NewListingKeepsInv(s, article, title);
    case UpdateListing(l, article, title) => UpdateListingKeepsInv(s, l, article, title);
    case Change(l, handle, action, target, unmapTo) => ChangeKeepsInv(s, l, handle, action, target, unmapTo);
    case Refresh(l, handle, candidates) => RefreshKeepsInv(s, l, handle, candidates);
    case ApiLink(l, seen) => LinkBySkuKeepsInv(s, l, seen, Sku.ValidApiSku(seen.article));
  }

  /** In every reachable state product codes and non-blank SKUs are unique and a matched listing has a variant. */
  lemma {:induction false} RunKeepsInv(commands: seq<Command>)
    ensures Inv(Run(commands))
  {
    if commands != [] {
      var s, c := Run(commands[..|commands| - 1]), commands[|commands| - 1];
      RunKeepsInv(commands[..|commands| - 1]);
      if Step(s, c).Ok? { StepKeepsInv(s, c); }
    }
  }

  ghost predicate ReachedBy(s: State, commands: seq<Command>) { s == Run(commands) }

  ghost predicate Reachable(s: State) { exists commands :: ReachedBy(s, commands) }

  lemma ReachableInv(s: State)
    requires Reachable(s)
    ensures Inv(s)
  {
    var commands :| ReachedBy(s, commands);
    RunKeepsInv(commands);
  }

  lemma ReachableNext(s: State, c: Command)
    requires Reachable(s)
    ensures Reachable(Next(s, c))
  {
    var commands :| ReachedBy(s, commands);
    assert (commands + [c])[..|commands|] == commands;
    assert ReachedBy(Next(s, c), commands + [c]);
  }

  // ---------- the history as an event log ----------

  function Applied(m: Mapped, r: Record): Mapped {
    match r.action
    case MapAction => Mapped(r.target, r.after)
    case UnmapAction => Mapped(None, r.after)
    case _ => m.(status := r.after)
  }

  function Replay(history: seq<Record>): Mapped {
    if history == [] then UNMAPPED else Applied(Replay(history[..|history| - 1]), history[|history| - 1])
  }

  /** Each record's previous variant is the one the records before it left. */
  ghost predicate Chained(history: seq<Record>) {
    history == []
    || (Chained(history[..|history| - 1]) && history[|history| - 1].previous
        == Replay(history[..|history| - 1]).variant)
  }

  lemma {:induction false} ChainedMeaning(history: seq<Record>, i: nat)
    requires Chained(history) && i < |history|
    ensures history[i].previous == Replay(history[..i]).variant
  {
    if i < |history| - 1 {
      ChainedMeaning(history[..|history| - 1], i);
      assert history[..|history| - 1][..i] == history[..i];
    }
  }

  ghost predicate Replays(s: State, l: nat)
    requires Known(s, l)
  {
    Replay(s.history[l]) == s.listings[l].mapping
  }

  /** The history replays to the mapping, and its records chain. */
  ghost predicate Sound(history: seq<Record>, mapping: Mapped) { Replay(history) == mapping && Chained(history) }

  ghost predicate Faithful(s: State) { forall l :: Known(s, l) ==> Sound(s.history[l], s.listings[l].mapping) }

  lemma ReplaySnoc(history: seq<Record>, r: Record)
    ensures Replay(history + [r]) == Applied(Replay(history), r)
    ensures Chained(history + [r]) <==> Chained(history) && r.previous == Replay(history).variant
  {
    var t := history + [r];
    assert t[..|history|] == history && t[|history|] == r;
  }

  lemma SoundSnoc(history: seq<Record>, m: Mapped, r: Record, after: Mapped)
    requires Sound(history, m)
    ensures Replay(history + [r]) == after <==> Applied(m, r) == after
    ensures Sound(history + [r], after) <==> Applied(m, r) == after && r.previous == m.variant
  {
    ReplaySnoc(history, r);
  }

  lemma OthersUnwritten(s: State, l: nat, mapping: Mapped, record: Record)
    requires Faithful(s) && Known(s, l)
    ensures var t := Write(s, l, mapping, record);
      Known(t, l) && (Faithful(t) <==> Sound(t.history[l], t.listings[l].mapping))
  {
    var t := Write(s, l, mapping, record);
    if Sound(t.history[l], t.listings[l].mapping) {
      forall k | Known(t, k) ensures Sound(t.history[k], t.listings[k].mapping) {
        if k != l { assert Known(s, k) && t.history[k] == s.history[k] && t.listings[k] == s.listings[k]; }
      }
    }
  }

  lemma WriteFaithfulIff(s: State, l: nat, mapping: Mapped, record: Record)
    requires Faithful(s) && Known(s, l)
    ensures Replays(Write(s, l, mapping, record), l) <==> Applied(s.listings[l].mapping, record) == mapping
    ensures Faithful(Write(s, l, mapping, record)) <==>
              Applied(s.listings[l].mapping, record) == mapping && record.previous == s.listings[l].mapping.variant
  {
    SoundSnoc(s.history[l], s.listings[l].mapping, record, mapping);
    OthersUnwritten(s, l, mapping, record);
  }

  /** A manual change from a faithful state keeps replay exactly when it sets the variant itself or the caller's listing
      object still has the stored variant; it keeps the whole history faithful exactly in the latter case. */
  lemma ChangeKeepsReplayIff(s: State, l: nat, handle: Mapped, action: Action, target: Option<nat>,
                             unmapTo: Option<MappingStatus>)
    requires Faithful(s) && Changing(s, l, handle, action, target, unmapTo).Ok?
    ensures var t := Changing(s, l, handle, action, target, unmapTo).value;
      && Known(t, l)
      && (Replays(t, l) <==>
          action.MapAction? || action.UnmapAction? || handle.variant == s.listings[l].mapping.variant)
      && (Faithful(t) <==> handle.variant == s.listings[l].mapping.variant)
  {
    var mapping := Changed(handle, action, target, unmapTo).value;
    WriteFaithfulIff(s, l, mapping, Record(action, mapping.status, handle.variant, target));
  }

  /** Whether a command's listing object has the stored variant. */
  predicate Fresh(s: State, c: Command) {
    match c
    case Change(l, handle, _, _, _) => Known(s, l) ==> handle.variant == s.listings[l].mapping.variant
    case Refresh(l, handle, _) => Known(s, l) ==> handle.variant == s.listings[l].mapping.variant
    case ApiLink(l, seen) => Known(s, l) ==> seen.mapping.variant == s.listings[l].mapping.variant
    case _ => true
  }

  predicate FreshRun(commands: seq<Command>) {
    commands == []
    || (FreshRun(commands[..|commands| - 1]) && Fresh(Run(commands[..|commands| - 1]), commands[|commands| - 1]))
  }

  ghost predicate FreshAt(commands: seq<Command>, n: nat)
    requires n < |commands|
  {
    Fresh(Run(commands[..n]), commands[n])
  }

  /** At each command of the run, the variant its listing object shows is the stored one. */
  lemma {:induction false} FreshRunIff(commands: seq<Command>)
    ensures FreshRun(commands) <==> forall n: nat :: n < |commands| ==> FreshAt(commands, n)
    decreases |commands|
  {
    if commands != [] {
      var most := commands[..|commands| - 1];
      FreshRunIff(most);
      forall n: nat | n < |most| ensures FreshAt(most, n) <==> FreshAt(commands, n) {
        assert most[n] == commands[n] && most[..n] == commands[..n];
      }
      assert FreshRun(commands) <==> FreshRun(most) && FreshAt(commands, |most|);
    }
  }

  lemma SameMappingsStayFaithful(s: State, t: State)
    requires Faithful(s) && t.history == s.history
    requires forall l :: Known(t, l) ==> Known(s, l) && t.listings[l].mapping == s.listings[l].mapping
    ensures Faithful(t)
  {
    forall l | Known(t, l) ensures Sound(t.history[l], t.listings[l].mapping) { assert Known(s, l); }
  }

  lemma RefreshStaysFaithful(s: State, l: nat, handle: Mapped, candidates: set<nat>)
    requires Faithful(s) && Refreshing(s, l, handle, candidates).Ok? && Fresh(s, Refresh(l, handle, candidates))
    ensures Faithful(Refreshing(s, l, handle, candidates).value)
  {
    if Changing(s, l, handle, ConflictMarker, None, None).Ok? {
      ChangeKeepsReplayIff(s, l, handle, ConflictMarker, None, None);
    }
    if Changing(s, l, handle, ReviewMarker, None, None).Ok? {
      ChangeKeepsReplayIff(s, l, handle, ReviewMarker, None, None);
    }
  }

  /** The listing's history replays, and the whole history is faithful as far as the previous variants tell. */
  ghost predicate ReplaysFrom(s: State, t: State, l: nat, variant: Option<nat>)
    requires Known(s, l)
  {
    Known(t, l) && Replays(t, l) && (t.history != s.history ==>
                                       (Faithful(t) <==> variant == s.listings[l].mapping.variant))
    && (t.history == s.history ==> Faithful(t))
  }

  lemma WriteReplays(s: State, l: nat, mapping: Mapped, record: Record)
    requires Faithful(s) && Known(s, l) && Applied(s.listings[l].mapping, record) == mapping
    ensures ReplaysFrom(s, Write(s, l, mapping, record), l, record.previous)
  {
    WriteFaithfulIff(s, l, mapping, record);
    assert |Write(s, l, mapping, record).history[l]| == |s.history[l]| + 1;
  }

  lemma MarkReplays(s: State, l: nat, seen: Mapped)
    requires Faithful(s) && Known(s, l)
    ensures ReplaysFrom(s, MarkConflict(s, l, seen), l, seen.variant)
  {
    assert Replays(s, l);
    WriteReplays(s, l, s.listings[l].mapping.(status := Conflict),
                 Record(ConflictMarker, Conflict, seen.variant, seen.variant));
  }

  lemma ReviewReplays(s: State, t: State, u: State, l: nat, variant: Option<nat>)
    requires Known(s, l) && ReplaysFrom(s, t, l, variant) && u.history == t.history && u.listings == t.listings
    ensures ReplaysFrom(s, u, l, variant)
  {
    SameMappingsAlike(t, u, l);
  }

  lemma MatchReplays(s: State, l: nat, previous: Option<nat>, v: nat, title: string)
    requires Faithful(s) && Known(s, l) && v in s.variants
    ensures ReplaysFrom(s, Reviewed(Write(s, l, Mapped(Some(v), Matched),
                                          Record(MapAction, Matched, previous, Some(v))), v, title),
                        l, previous)
  {
    var record := Record(MapAction, Matched, previous, Some(v));
    var t := Write(s, l, Mapped(Some(v), Matched), record);
    WriteReplays(s, l, Mapped(Some(v), Matched), record);
    ReviewReplays(s, t, Reviewed(t, v, title), l, previous);
  }

  lemma LinkReplays(s: State, l: nat, seen: Listing, v: nat)
    requires Faithful(s) && Known(s, l) && v in s.variants
    ensures ReplaysFrom(s, Link(s, l, seen, v), l, seen.mapping.variant)
  {
    var m := seen.mapping;
    if m.variant.Some? && m.variant.value != v {
      MarkReplays(s, l, m);
    } else {
      MatchReplays(s, l, m.variant, v, Strip(seen.title));
    }
  }

  lemma SameMappingsAlike(s: State, t: State, l: nat)
    requires t.history == s.history && t.listings == s.listings && Known(s, l)
    ensures Known(t, l) && (Replays(t, l) <==> Replays(s, l))
    ensures Faithful(t) <==> Faithful(s)
  {
    if Faithful(s) { SameMappingsStayFaithful(s, t); }
    if Faithful(t) { SameMappingsStayFaithful(t, s); }
  }

  lemma CreatedReplays(s: State, t: State, l: nat, seen: Listing)
    requires Faithful(s) && Known(s, l) && t.history == s.history && t.listings == s.listings
             && s.nextVariant in t.variants
    ensures Known(t, l) && ReplaysFrom(s, Link(t, l, seen, s.nextVariant), l, seen.mapping.variant)
  {
    SameMappingsAlike(s, t, l);
    LinkReplays(t, l, seen, s.nextVariant);
  }

  /** Automatic linkage always keeps replay; the previous variants still chain exactly when nothing was recorded or the
      caller's object had the stored variant. */
  lemma ApiLinkReplays(s: State, l: nat, seen: Listing, sku: string)
    requires Faithful(s) && Known(s, l) && LinkBySku(s, l, seen, sku).Ok?
    ensures ReplaysFrom(s, LinkBySku(s, l, seen, sku).value, l, seen.mapping.variant)
  {
    var r := ResolveVariant(s, sku);
    if sku == "" {
      SameMappingsAlike(s, s, l);
    } else if HoldsOther(s, seen, sku) || r.Unsafe? || (r.Missing? && ResolveParent(s, sku).Unsafe?) {
      MarkReplays(s, l, seen.mapping);
    } else if r.One? {
      LinkReplays(s, l, seen, r.id);
    } else {
      CreatedReplays(s, CreateFor(s, sku, Strip(seen.title)).value, l, seen);
    }
  }

  lemma NewListingStaysFaithful(s: State, article: string, title: string)
    requires Faithful(s)
    ensures Faithful(WithListing(s, article, title))
  {
    var t := WithListing(s, article, title);
    forall l | Known(t, l) ensures Sound(t.history[l], t.listings[l].mapping) {
      if l != s.nextListing { assert Known(s, l); }
    }
  }

  lemma StepStaysFaithful(s: State, c: Command)
    requires Faithful(s) && Step(s, c).Ok? && Fresh(s, c)
    ensures Faithful(Step(s, c).value)
  {
    match c
    case Change(l, handle, action, target, unmapTo) => ChangeKeepsReplayIff(s, l, handle, action, target, unmapTo);
    case Refresh(l, handle, candidates) => RefreshStaysFaithful(s, l, handle, candidates);
    case ApiLink(l, seen) => ApiLinkReplays(s, l, seen, Sku.ValidApiSku(seen.article));
    case NewListing(article, title) => NewListingStaysFaithful(s, article, title);
    case _ => SameMappingsStayFaithful(s, Step(s, c).value);
  }

  /** While every manual change works on an up-to-date listing object, replaying a listing's history from the unmapped
      state gives its current variant and status, and the records chain. */
  lemma {:induction false} HistoryReplays(commands: seq<Command>)
    requires FreshRun(commands)
    ensures Faithful(Run(commands))
  {
    if commands != [] {
      var s, c := Run(commands[..|commands| - 1]), commands[|commands| - 1];
      HistoryReplays(commands[..|commands| - 1]);
      if Step(s, c).Ok? { StepStaysFaithful(s, c); }
    }
  }

  /** A marker through a listing object read before the mapping silently unmaps the listing: replay still shows variant
      1. */
  lemma StaleMarkerUnmaps(article: string, title: string, sku: string)
    requires sku != "" && |sku| <= CODE_LENGTH
    ensures var listed := Next(EMPTY, NewListing(article, title));
      var stocked := Next(Next(listed, AddProduct(sku, sku)), AddVariant(1, sku, sku));
      var s := Next(stocked, Change(1, UNMAPPED, MapAction, Some(1), None));
      var t := Next(s, Change(1, UNMAPPED, ReviewMarker, None, None));
      && Known(s, 1) && Replays(s, 1) && Known(t, 1)
      && t.listings[1].mapping.variant == None && Replay(t.history[1]).variant == Some(1)
  {
    var listed := Next(EMPTY, NewListing(article, title));
    assert Coded(listed.products, sku) == {};
    var priced := Next(listed, AddProduct(sku, sku));
    assert Holding(priced.variants, sku) == {};
    var s := Next(Next(priced, AddVariant(1, sku, sku)), Change(1, UNMAPPED, MapAction, Some(1), None));
    var mapped := Record(MapAction, Matched, None, Some(1));
    assert s.history[1] == [] + [mapped];
    ReplaySnoc([], mapped);
    ReplaySnoc([mapped], Record(ReviewMarker, NeedsReview, None, None));
  }

  // ---------- steps that leave mappings alone ----------

  /** Catalogue edits and listing upserts neither move a mapping nor write history. */
  lemma OtherStepsKeepMappings(s: State, c: Command, l: nat)
    requires Inv(s) && Known(s, l) && !c.Change? && !c.Refresh? && !c.ApiLink?
    ensures Known(Next(s, c), l) && Next(s, c).history[l] == s.history[l]
    ensures Next(s, c).listings[l].mapping == s.listings[l].mapping
  {
  }

  /** A refresh never matches and never assigns a variant; repeating it through the updated object changes nothing. */
  lemma RefreshOnlyFlags(s: State, l: nat, handle: Mapped, candidates: set<nat>)
    requires Known(s, l) && Refreshing(s, l, handle, candidates).Ok?
    ensures var t := Refreshing(s, l, handle, candidates).value;
      && Known(t, l)
      && (t == s || (t.listings[l].mapping.variant.None?
                     && t.listings[l].mapping.status == if |candidates| > 1 then Conflict else NeedsReview))
      && (handle == s.listings[l].mapping ==> Refreshing(t, l, t.listings[l].mapping, candidates) == Ok(t))
  {
  }

  // ---------- what the automatic linkage achieves ----------

  lemma AtMostOneHolder(s: State, sku: string, v: nat)
    requires UniqueSkus(s) && sku != "" && v in Holding(s.variants, sku)
    ensures Holding(s.variants, sku) == {v}
  {
  }

  lemma AtMostOneCoded(s: State, code: string, p: nat)
    requires UniqueCodes(s) && p in Coded(s.products, code)
    ensures Coded(s.products, code) == {p}
  {
  }

  /** Unique SKUs leave no way to find several holders, nor a holder other than the one the listing already has. */
  lemma LaterConflictsUnreachable(s: State, seen: Listing, sku: string)
    requires Inv(s) && sku != "" && !HoldsOther(s, seen, sku)
    ensures |Holding(s.variants, sku)| <= 1 && |Coded(s.products, sku)| <= 1
    ensures ResolveVariant(s, sku).One? ==>
              seen.mapping.variant.None? || seen.mapping.variant == Some(ResolveVariant(s, sku).id)
    ensures ResolveVariant(s, sku).Missing? ==> seen.mapping.variant.None?
  {
    VariantResolution(s, sku);
    var m := seen.mapping.variant;
    if m.Some? { AtMostOneHolder(s, sku, m.value); }
    if Holding(s.variants, sku) != {} { AtMostOneHolder(s, sku, Min(Holding(s.variants, sku))); }
    if Coded(s.products, sku) != {} { AtMostOneCoded(s, sku, Min(Coded(s.products, sku))); }
  }

  /** Linking is unsafe when the listing object has another variant, or the SKU's holder, or else the code's product, is
      not live. */
  predicate UnsafeFor(s: State, seen: Listing, sku: string) {
    HoldsOther(s, seen, sku) || (exists v | v in Holding(s.variants, sku) :: !SafeVariant(s, v))
    || (Holding(s.variants, sku) == {} && exists p | p in Coded(s.products, sku) :: !s.products[p].status.Live?)
  }

  /** The variants and products an automatic linkage may leave behind. */
  ghost predicate GrewByOne(s: State, t: State) {
    && s.products.Keys <= t.products.Keys <= s.products.Keys + {s.nextProduct}
    && s.variants.Keys <= t.variants.Keys <= s.variants.Keys + {s.nextVariant}
    && (forall p :: p in s.products ==> t.products[p] == s.products[p])
    && forall v :: v in s.variants ==> t.variants[v] == s.variants[v].(review := t.variants[v].review)
  }

  ghost predicate LinkedTo(s: State, t: State, l: nat, seen: Mapped, sku: string, v: nat)
    requires Known(s, l)
  {
    && Known(t, l) && t.listings == s.listings[l := s.listings[l].(mapping := Mapped(Some(v), Matched))]
    && SafeVariant(t, v) && t.variants[v].sku == sku && (v in s.variants <==> Holding(s.variants, sku) != {})
    && (seen.variant.None? || seen.variant == Some(v))
    && GrewByOne(s, t)
  }

  /** The stored variant is untouched; the status is conflict, unless the object already showed one and nothing was
      saved. */
  ghost predicate InConflict(s: State, t: State, l: nat, seen: Mapped)
    requires Known(s, l)
  {
    && Known(t, l) && t.products == s.products && t.variants == s.variants
    && (if seen.status.Conflict? then t == s
        else t.listings == s.listings[l := s.listings[l].(mapping := s.listings[l].mapping.(status := Conflict))])
  }

  lemma MarkMeaning(s: State, l: nat, seen: Mapped)
    requires Known(s, l)
    ensures InConflict(s, MarkConflict(s, l, seen), l, seen)
  {
  }

  lemma ReviewGrows(s: State, v: nat, title: string)
    requires v in s.variants
    ensures var t := Reviewed(s, v, title);
      && t.listings == s.listings && t.history == s.history && t.products == s.products
         && t.variants.Keys == s.variants.Keys
      && forall w :: w in s.variants ==> t.variants[w] == s.variants[w].(review := t.variants[w].review)
  {
  }

  lemma LinkMeaning(s: State, l: nat, seen: Listing, sku: string, v: nat)
    requires Inv(s) && Known(s, l) && SafeVariant(s, v) && s.variants[v].sku == sku
    requires seen.mapping.variant.None? || seen.mapping.variant == Some(v)
    ensures LinkedTo(s, Link(s, l, seen, v), l, seen.mapping, sku, v)
  {
    assert v in Holding(s.variants, sku);
    var record := Record(MapAction, Matched, seen.mapping.variant, Some(v));
    ReviewGrows(Write(s, l, Mapped(Some(v), Matched), record), v, Strip(seen.title));
  }

  lemma CreateMeaning(s: State, sku: string, title: string)
    requires Inv(s) && sku != "" && Holding(s.variants, sku) == {} && !ResolveParent(s, sku).Unsafe?
    ensures CreateFor(s, sku, title).Raised? <==> |sku| > CODE_LENGTH
    ensures CreateFor(s, sku, title).Ok? ==> var t := CreateFor(s, sku, title).value;
      SafeVariant(t, s.nextVariant) && t.variants[s.nextVariant].sku == sku && GrewByOne(s, t)
        && t.listings == s.listings
  {
    var all := Coded(s.products, sku);
    ResolveMeaning(all, set p | p in all && s.products[p].status.Live?);
  }

  lemma SafetyByResolution(s: State, seen: Listing, sku: string)
    requires Inv(s) && sku != ""
    ensures UnsafeFor(s, seen, sku) <==>
              HoldsOther(s, seen, sku) || ResolveVariant(s, sku).Unsafe?
              || (ResolveVariant(s, sku).Missing? && ResolveParent(s, sku).Unsafe?)
  {
    VariantResolution(s, sku);
    var all := Coded(s.products, sku);
    ResolveMeaning(all, set p | p in all && s.products[p].status.Live?);
    if Holding(s.variants, sku) != {} {
      var v := Min(Holding(s.variants, sku));
      AtMostOneHolder(s, sku, v);
      SingletonResolution(Holding(s.variants, sku), (set w | w in Holding(s.variants, sku) && SafeVariant(s, w)), v);
    }
    if all != {} {
      var p := Min(all);
      AtMostOneCoded(s, sku, p);
      SingletonResolution(all, (set q | q in all && s.products[q].status.Live?), p);
    }
  }

  lemma SingletonResolution(all: set<nat>, safe: set<nat>, x: nat)
    requires all == {x} && safe <= all
    ensures Resolve(all, safe) == if x in safe then One(x) else Unsafe
  {
    assert x in safe ==> safe == {x};
  }

  /** Linking a listing by a valid SKU raises exactly when a variant would have to be created whose SKU is longer than a
      product code may be. Otherwise it ends in conflict with the stored variant untouched exactly when linking is
      unsafe, and else matched to a live variant of a live product holding that SKU, which is the variant of the
      caller's object if that has one. At most one product and one variant are new, and no other listing changes. */
  lemma ApiLinkOutcome(s: State, l: nat, seen: Listing, sku: string)
    requires Inv(s) && Known(s, l) && sku != ""
    ensures LinkBySku(s, l, seen, sku).Raised? <==>
              seen.mapping.variant.None? && Holding(s.variants, sku) == {} && |sku| > CODE_LENGTH
    ensures LinkBySku(s, l, seen, sku).Ok? ==> var t := LinkBySku(s, l, seen, sku).value;
      if UnsafeFor(s, seen, sku) then InConflict(s, t, l, seen.mapping)
      else exists v :: LinkedTo(s, t, l, seen.mapping, sku, v)
  {
    SafetyByResolution(s, seen, sku);
    VariantResolution(s, sku);
    MarkMeaning(s, l, seen.mapping);
    if !HoldsOther(s, seen, sku) {
      LaterConflictsUnreachable(s, seen, sku);
      LinkOutcome(s, l, seen, sku);
    }
  }

  /** A stored variant is replaced exactly when linking is safe for the caller's object and that variant does not hold
      the SKU, which cannot be while the object has the stored variant. */
  lemma ApiLinkRepointsIff(s: State, l: nat, seen: Listing, sku: string)
    requires Inv(s) && Known(s, l) && sku != "" && LinkBySku(s, l, seen, sku).Ok? && s.listings[l].mapping.variant.Some?
    ensures var t, before := LinkBySku(s, l, seen, sku).value, s.listings[l].mapping.variant.value;
      Known(t, l)
      && (t.listings[l].mapping.variant == Some(before) <==>
          before in Holding(s.variants, sku) || UnsafeFor(s, seen, sku))
    ensures seen.mapping.variant == s.listings[l].mapping.variant ==>
              s.listings[l].mapping.variant.value in Holding(s.variants, sku) || UnsafeFor(s, seen, sku)
  {
    ApiLinkOutcome(s, l, seen, sku);
    if !UnsafeFor(s, seen, sku) {
      var t := LinkBySku(s, l, seen, sku).value;
      var v :| LinkedTo(s, t, l, seen.mapping, sku, v);
      LinkedVariant(s, t, l, seen.mapping, sku, v);
    }
  }

  lemma LinkedVariant(s: State, t: State, l: nat, seen: Mapped, sku: string, v: nat)
    requires Inv(s) && Known(s, l) && sku != "" && LinkedTo(s, t, l, seen, sku, v)
             && s.listings[l].mapping.variant.Some?
    ensures t.listings[l].mapping.variant == Some(v)
    ensures v == s.listings[l].mapping.variant.value
            <==> s.listings[l].mapping.variant.value in Holding(s.variants, sku)
  {
    var before := s.listings[l].mapping.variant.value;
    if before in Holding(s.variants, sku) {
      assert s.variants[v].sku == t.variants[v].sku;
      AtMostOneHolder(s, sku, before);
    }
  }

  lemma LinkOutcome(s: State, l: nat, seen: Listing, sku: string)
    requires Inv(s) && Known(s, l) && sku != "" && !HoldsOther(s, seen, sku)
    ensures LinkBySku(s, l, seen, sku).Raised? <==> Holding(s.variants, sku) == {} && |sku| > CODE_LENGTH
    ensures !ResolveVariant(s, sku).Unsafe? && !(ResolveVariant(s, sku).Missing? && ResolveParent(s, sku).Unsafe?)
            && LinkBySku(s, l, seen, sku).Ok? ==>
              exists v :: LinkedTo(s, LinkBySku(s, l, seen, sku).value, l, seen.mapping, sku, v)
  {
    LaterConflictsUnreachable(s, seen, sku);
    VariantResolution(s, sku);
    if |sku| > CODE_LENGTH { LongCodesAbsent(s, sku); }
    var r, title := ResolveVariant(s, sku), Strip(seen.title);
    if r.One? {
      LinkMeaning(s, l, seen, sku, r.id);
    } else if r.Missing? && !ResolveParent(s, sku).Unsafe? {
      CreateMeaning(s, sku, title);
      if |sku| <= CODE_LENGTH { CreatedLinked(s, l, seen, sku, title); }
    }
  }

  lemma CreatedLinked(s: State, l: nat, seen: Listing, sku: string, title: string)
    requires Inv(s) && Known(s, l) && sku != "" && Holding(s.variants, sku) == {} && seen.mapping.variant.None?
    requires CreateFor(s, sku, title).Ok?
    ensures s.nextVariant in CreateFor(s, sku, title).value.variants && Known(CreateFor(s, sku, title).value, l)
    ensures LinkedTo(s, Link(CreateFor(s, sku, title).value, l, seen, s.nextVariant), l, seen.mapping, sku,
                     s.nextVariant)
  {
    var t := CreateFor(s, sku, title).value;
    CreateMeaning(s, sku, title);
    CreateKeepsInv(s, sku, title);
    LinkMeaning(t, l, seen, sku, s.nextVariant);
    LinkedThrough(s, t, Link(t, l, seen, s.nextVariant), l, seen.mapping, sku, s.nextVariant);
  }

  lemma LinkedThrough(s: State, t: State, u: State, l: nat, seen: Mapped, sku: string, v: nat)
    requires Known(s, l) && Known(t, l) && t.listings == s.listings && GrewByOne(s, t)
             && LinkedTo(t, u, l, seen, sku, v)
    requires s.nextVariant == v && v !in s.variants && Holding(s.variants, sku) == {}
    requires u.variants.Keys == t.variants.Keys && u.products.Keys == t.products.Keys
    ensures LinkedTo(s, u, l, seen, sku, v)
  {
  }

  lemma LongCodesAbsent(s: State, sku: string)
    requires UniqueCodes(s) && |sku| > CODE_LENGTH
    ensures ResolveParent(s, sku).Missing?
  {
    assert Coded(s.products, sku) == {};
  }

  /** Linking an unmapped listing by a SKU that nobody holds and that is longer than a product code raises. */
  lemma LongSkuRaises(s: State, l: nat)
    requires Inv(s) && Known(s, l) && s.listings[l].mapping.variant.None?
    requires var sku := Sku.ValidApiSku(s.listings[l].article);
      |sku| > CODE_LENGTH && Holding(s.variants, sku) == {}
    ensures Step(s, ApiLink(l, s.listings[l])).Raised?
  {
    ApiLinkOutcome(s, l, s.listings[l], Sku.ValidApiSku(s.listings[l].article));
  }

  /** A run to such a state: a new listing whose article is an accepted SKU of 65 characters. */
  lemma LongArticleExample() returns (article: string)
    ensures Sku.Matches(Sku.PATTERN, article) && |article| == 65
    ensures var s := Next(EMPTY, NewListing(article, ""));
      Known(s, 1) && Step(s, ApiLink(1, s.listings[1])).Raised?
  {
    article := Sku.LongSkuExists(48);
    NewLongListingRaises(article);
  }

  lemma FirstListing(article: string)
    ensures var s := Next(EMPTY, NewListing(article, ""));
      Inv(s) && Known(s, 1) && s.listings[1] == Listing(article, "", UNMAPPED) && s.variants == map[]
  {
    NewListingKeepsInv(EMPTY, article, "");
  }

  lemma NobodyHolds(s: State, sku: string)
    requires s.variants == map[]
    ensures Holding(s.variants, sku) == {}
  {
  }

  lemma NewLongListingRaises(article: string)
    requires |Sku.ValidApiSku(article)| > CODE_LENGTH
    ensures var s := Next(EMPTY, NewListing(article, ""));
      Known(s, 1) && Step(s, ApiLink(1, s.listings[1])).Raised?
  {
    var s := Next(EMPTY, NewListing(article, ""));
    FirstListing(article);
    NobodyHolds(s, Sku.ValidApiSku(article));
    LongSkuRaises(s, 1);
  }

  /** Two live variants of one product, and a listing mapped to the first by hand. */
  ghost predicate IsExample(s: State, a: string, b: string) {
    && Inv(s) && Known(s, 1) && s.listings[1] == Listing(a, "", Mapped(Some(1), Matched))
    && SafeVariant(s, 1) && SafeVariant(s, 2) && s.variants[1].sku == b && s.variants[2].sku == a
  }

  lemma StockedExample(a: string, b: string) returns (s: State)
    requires a != "" && b != "" && a != b && |a| <= CODE_LENGTH && |b| <= CODE_LENGTH
    ensures Reachable(s) && SafeVariant(s, 1) && SafeVariant(s, 2) && s.variants[1].sku == b && s.variants[2].sku == a
            && s.nextListing == 1
  {
    assert ReachedBy(EMPTY, []);
    var s1 := Next(EMPTY, AddProduct(b, b));
    ReachableNext(EMPTY, AddProduct(b, b));
    assert Coded(EMPTY.products, b) == {};
    var s2 := Next(s1, AddVariant(1, b, b));
    ReachableNext(s1, AddVariant(1, b, b));
    assert Holding(s1.variants, b) == {};
    s := Next(s2, AddVariant(1, a, a));
    ReachableNext(s2, AddVariant(1, a, a));
    assert Holding(s2.variants, a) == {};
  }

  lemma ListedExample(stocked: State, a: string) returns (s: State)
    requires Reachable(stocked) && SafeVariant(stocked, 1) && SafeVariant(stocked, 2) && stocked.nextListing == 1
    ensures Reachable(s) && SafeVariant(s, 1) && SafeVariant(s, 2) && s.variants == stocked.variants && Known(s, 1)
            && s.listings[1] == Listing(a, "", UNMAPPED)
  {
    s := Next(stocked, NewListing(a, ""));
    ReachableNext(stocked, NewListing(a, ""));
  }

  lemma ExampleReached(a: string, b: string) returns (s: State)
    requires a != "" && b != "" && a != b && |a| <= CODE_LENGTH && |b| <= CODE_LENGTH
    ensures Reachable(s) && IsExample(s, a, b)
  {
    var stocked := StockedExample(a, b);
    var listed := ListedExample(stocked, a);
    s := Next(listed, Change(1, UNMAPPED, MapAction, Some(1), None));
    ReachableNext(listed, Change(1, UNMAPPED, MapAction, Some(1), None));
    ReachableInv(s);
  }

  /** Linking by the first SKU through the object from before that mapping moves the listing to the other variant. */
  lemma StaleLinkRepoints(s: State, a: string, b: string)
    requires a != "" && a != b && IsExample(s, a, b) && Sku.ValidApiSku(a) == a
    ensures var t := Step(s, ApiLink(1, Listing(a, "", UNMAPPED)));
      t.Ok? && Known(t.value, 1) && t.value.listings[1].mapping == Mapped(Some(2), Matched)
  {
    ExampleRepoints(s, a, b);
    ExampleKnown(s, a, b);
    LinkedByArticle(s, 1, Listing(a, "", UNMAPPED), a);
    SteppedAlike(s, 1, Listing(a, "", UNMAPPED));
  }

  lemma LinkedByArticle(s: State, l: nat, seen: Listing, sku: string)
    requires Known(s, l) && Present(s.variants, seen.mapping.variant) && Sku.ValidApiSku(seen.article) == sku
    ensures ApiLinking(s, l, seen) == LinkBySku(s, l, seen, sku)
  {
  }

  lemma SteppedAlike(s: State, l: nat, seen: Listing)
    ensures Step(s, ApiLink(l, seen)) == ApiLinking(s, l, seen)
  {
  }

  lemma ExampleKnown(s: State, a: string, b: string)
    requires IsExample(s, a, b)
    ensures Known(s, 1)
  {
  }

  lemma ExampleRepoints(s: State, a: string, b: string)
    requires a != "" && a != b && IsExample(s, a, b)
    ensures var t := LinkBySku(s, 1, Listing(a, "", UNMAPPED), a);
      t.Ok? && Known(t.value, 1) && t.value.listings[1].mapping == Mapped(Some(2), Matched)
  {
    assert 2 in Holding(s.variants, a);
    AtMostOneHolder(s, a, 2);
    SingletonResolution(Holding(s.variants, a), (set v | v in Holding(s.variants, a) && SafeVariant(s, v)), 2);
  }

  /** A run to such a state, with two accepted SKUs: the listing was mapped by hand to the variant its article is
      not. */
  lemma StaleLinkExample() returns (s: State, a: string, b: string)
    ensures Sku.Matches(Sku.PATTERN, a) && Sku.Matches(Sku.PATTERN, b) && Reachable(s) && IsExample(s, a, b)
    ensures var t := Step(s, ApiLink(1, Listing(a, "", UNMAPPED)));
      t.Ok? && Known(t.value, 1) && t.value.listings[1].mapping == Mapped(Some(2), Matched)
  {
    a := Sku.LongSkuExists(1);
    b := Sku.LongSkuExists(2);
    s := ExampleReached(a, b);
    StaleLinkRepoints(s, a, b);
  }

  // ---------- the tables ----------

  lemma TablesAgree(s: State, l: nat)
    requires Reachable(s)
    ensures l in s.history <==> l in s.listings
    ensures l in s.listings ==> Present(s.variants, s.listings[l].mapping.variant)
  {
    ReachableInv(s);
  }

  class MappingTables {
    var products: map<nat, Product>
    var variants: map<nat, Variant>
    var listings: map<nat, Listing>
    var history: map<nat, seq<Record>>
    var nextProduct: nat
    var nextVariant: nat
    var nextListing: nat

    ghost function Contents(): State
      reads this
    {
      State(products, variants, listings, history, nextProduct, nextVariant, nextListing)
    }

    ghost predicate Valid()
      reads this
    {
      Reachable(Contents())
    }

    constructor ()
      ensures Valid() && Contents() == EMPTY
    {
      products, variants, listings, history := map[], map[], map[], map[];
      nextProduct, nextVariant, nextListing := 1, 1, 1;
      new;
      assert ReachedBy(Contents(), []);
    }

    method WriteMapping(l: nat, mapping: Mapped, record: Record)
      requires Known(Contents(), l)
      modifies this`listings, this`history
      ensures Contents() == Write(old(Contents()), l, mapping, record)
    {
      listings := listings[l := listings[l].(mapping := mapping)];
      history := history[l := history[l] + [record]];
    }

    method MarkListingConflict(l: nat, seen: Mapped)
      requires Known(Contents(), l)
      modifies this`listings, this`history
      ensures Contents() == MarkConflict(old(Contents()), l, seen)
    {
      if seen.status.Conflict? { return; }
      WriteMapping(l, listings[l].mapping.(status := Conflict),
                   Record(ConflictMarker, Conflict, seen.variant, seen.variant));
    }

    /** Matches the listing and flags the variant when the listing's title is not one of its names. */
    method LinkListing(l: nat, seen: Listing, v: nat)
      requires Known(Contents(), l) && v in variants
      modifies this
      ensures Contents() == Link(old(Contents()), l, seen, v)
    {
      var m, title := seen.mapping, Strip(seen.title);
      if m.variant.Some? && m.variant.value != v {
        MarkListingConflict(l, m);
        return;
      }
      WriteMapping(l, Mapped(Some(v), Matched), Record(MapAction, Matched, m.variant, Some(v)));
      var variant := variants[v];
      if title == "" || title == variant.name { return; }
      if variant.product in products && title == products[variant.product].name { return; }
      if !variant.review.ReviewNeeded? {
        variants := variants[v := variant.(review := ReviewNeeded)];
      }
      assert variants == old(variants)[v := old(variants)[v].(review := ReviewNeeded)];
    }

    /** Saves a product of that code when there is none, then the imported draft variant under it. */
    method CreateDraft(sku: string, title: string) returns (created: bool)
      requires !ResolveParent(Contents(), sku).Unsafe?
      modifies this
      ensures created == CreateFor(old(Contents()), sku, title).Ok?
      ensures Contents() == if created then CreateFor(old(Contents()), sku, title).value else old(Contents())
    {
      var all := Coded(products, sku);
      var safe := set p | p in all && products[p].status.Live?;
      var parent := Resolve(all, safe);
      var product, name := nextProduct, NameFor(title, sku);
      if parent.One? {
        if |sku| > SKU_LENGTH { return false; }
        product := parent.id;
      } else {
        if |sku| > CODE_LENGTH { return false; }
        products, nextProduct := products[product := Product(sku, name, Live)], nextProduct + 1;
      }
      variants, nextVariant := variants[nextVariant := Variant(product, sku, name, Live, ImportedDraft)],
          nextVariant + 1;
      return true;
    }

    method ResolveHolder(sku: string) returns (r: Resolution)
      ensures r == ResolveVariant(Contents(), sku)
    {
      var all := Holding(variants, sku);
      var safe := set v | v in all && variants[v].status.Live? && variants[v].product in products
                          && products[variants[v].product].status.Live?;
      assert safe == set v | v in all && SafeVariant(Contents(), v);
      r := Resolve(all, safe);
    }

    method ResolveProduct(sku: string) returns (r: Resolution)
      ensures r == ResolveParent(Contents(), sku)
    {
      var all := Coded(products, sku);
      r := Resolve(all, set p | p in all && products[p].status.Live?);
    }

    /** Links by a SKU that the article has already been found to be. */
    method LinkListingBySku(l: nat, seen: Listing, sku: string) returns (returned: bool)
      requires Known(Contents(), l) && sku != ""
      modifies this
      ensures returned == LinkBySku(old(Contents()), l, seen, sku).Ok?
      ensures Contents() == if returned then LinkBySku(old(Contents()), l, seen, sku).value else old(Contents())
    {
      var m := seen.mapping;
      VariantResolution(Contents(), sku);
      if m.variant.Some? && (m.variant.value !in variants || variants[m.variant.value].sku != sku) {
        MarkListingConflict(l, m);
        return true;
      }
      var resolution := ResolveHolder(sku);
      if resolution.Unsafe? {
        MarkListingConflict(l, m);
        return true;
      }
      var v := nextVariant;
      if resolution.One? {
        v := resolution.id;
      } else {
        var parent := ResolveProduct(sku);
        if parent.Unsafe? {
          MarkListingConflict(l, m);
          return true;
        }
        var created := CreateDraft(sku, Strip(seen.title));
        if !created { return false; }
      }
      LinkListing(l, seen, v);
      return true;
    }

    method ApiLinkListing(l: nat, seen: Listing) returns (returned: bool)
      requires Valid()
      modifies this
      ensures Valid() && Contents() == Next(old(Contents()), ApiLink(l, seen))
      ensures returned == Step(old(Contents()), ApiLink(l, seen)).Ok?
    {
      ReachableNext(Contents(), ApiLink(l, seen));
      TablesAgree(Contents(), l);
      if l !in listings || !Present(variants, seen.mapping.variant) { return false; }
      var sku := Sku.ValidApiSku(seen.article);
      if sku == "" { return true; }
      returned := LinkListingBySku(l, seen, sku);
    }

    /** A manual change through a listing object whose mapping is `handle`. */
    method RecordMappingChange(l: nat, handle: Mapped, action: Action, target: Option<nat>,
                               unmapTo: Option<MappingStatus>)
      returns (record: Result<Record>)
      requires Valid()
      modifies this
      ensures Valid() && Contents() == Next(old(Contents()), Change(l, handle, action, target, unmapTo))
      ensures record.Ok? <==> Changing(old(Contents()), l, handle, action, target, unmapTo).Ok?
      ensures record.Ok? ==>
                Known(old(Contents()), l) && Known(Contents(), l) && history[l] == old(history)[l] + [record.value]
    {
      ReachableNext(Contents(), Change(l, handle, action, target, unmapTo));
      TablesAgree(Contents(), l);
      if l !in listings || !Present(variants, handle.variant) || !Present(variants, target) { return Raised; }
      var mapping := handle;
      match action {
        case MapAction =>
          if target.None? { return Raised; }
          mapping := Mapped(target, Matched);
        case UnmapAction =>
          var after := if unmapTo.Some? then unmapTo.value else Unmatched;
          if after.Matched? || after.ArchivedMapping? { return Raised; }
          mapping := Mapped(None, after);
        case ReviewMarker =>
          mapping := handle.(status := NeedsReview);
        case ConflictMarker =>
          mapping := handle.(status := Conflict);
      }
      var r := Record(action, mapping.status, handle.variant, target);
      WriteMapping(l, mapping, r);
      return Ok(r);
    }

    method RefreshCandidateStatus(l: nat, handle: Mapped, candidates: set<nat>) returns (record: Result<Option<Record>>)
      requires Valid()
      modifies this
      ensures Valid() && Contents() == Next(old(Contents()), Refresh(l, handle, candidates))
      ensures record.Ok? <==> Refreshing(old(Contents()), l, handle, candidates).Ok?
    {
      if handle.variant.Some? || handle.status.ArchivedMapping? || candidates == {} { return Ok(None); }
      if handle.status.Conflict? || (|candidates| == 1 && handle.status.NeedsReview?) { return Ok(None); }
      var action := if |candidates| > 1 then ConflictMarker else ReviewMarker;
      var r := RecordMappingChange(l, handle, action, None, None);
      return if r.Ok? then Ok(Some(r.value)) else Raised;
    }

    /** Creates or updates a listing from a source row. */
    method UpsertListing(existing: Option<nat>, article: string, title: string) returns (id: Result<nat>)
      requires Valid()
      modifies this
      ensures Valid()
      ensures Contents() == Next(old(Contents()), if existing.Some? then UpdateListing(existing.value, article, title)
                                                  else NewListing(article, title))
    {
      if existing.Some? {
        var l := existing.value;
        ReachableNext(Contents(), UpdateListing(l, article, title));
        TablesAgree(Contents(), l);
        if l !in listings { return Raised; }
        listings := listings[l := listings[l].(article := article, title := title)];
        return Ok(l);
      }
      ReachableNext(Contents(), NewListing(article, title));
      var l := nextListing;
      listings, history, nextListing := listings[l := Listing(article, title, UNMAPPED)], history[l := []], nextListing
        + 1;
      return Ok(l);
    }
  }
}
