/** What each mapping service accepts and writes, in terms of the stored fields alone. */
module MappingContracts {
  import opened Common
  import opened Mapping
  import Sku

  // ---------- catalogue ----------

  lemma AddProductMeaning(s: State, code: string, name: string)
    ensures var r := Step(s, AddProduct(code, name));
      && (r.Ok? <==> code != "" && |code| <= 64 && forall p :: p in s.products ==> s.products[p].code != code)
      && (r.Ok? ==> r.value == s.(products := s.products[s.nextProduct := Product(code, name, Live)],
                                  nextProduct := s.nextProduct + 1))
  {
    forall p ensures p in Coded(s.products, code) <==> p in s.products && s.products[p].code == code {
    }
  }

  lemma AddVariantMeaning(s: State, product: nat, sku: string, name: string)
    ensures var r := Step(s, AddVariant(product, sku, name));
      && (r.Ok? <==> product in s.products && |sku| <= 128
                     && (sku != "" ==> forall v :: v in s.variants ==> s.variants[v].sku != sku))
      && (r.Ok? ==>
            r.value == s.(variants := s.variants[s.nextVariant := Variant(product, sku, name, Live, ManualConfirmed)],
                          nextVariant := s.nextVariant + 1))
  {
    forall v ensures v in Holding(s.variants, sku) <==> v in s.variants && s.variants[v].sku == sku {
    }
  }

  lemma EditVariantMeaning(s: State, v: nat, sku: string, name: string, status: ProductStatus)
    ensures var r := Step(s, EditVariant(v, sku, name, status));
      && (r.Ok? <==> v in s.variants && |sku| <= 128
                     && (sku != "" ==> forall w :: w in s.variants && w != v ==> s.variants[w].sku != sku))
      && (r.Ok? ==> r.value == s.(variants := s.variants[v := s.variants[v].(sku := sku, name := name,
                                                                             status := status)]))
  {
    forall w ensures w in Holding(s.variants, sku) <==> w in s.variants && s.variants[w].sku == sku {
    }
  }

  lemma EditProductMeaning(s: State, p: nat, name: string, status: ProductStatus)
    ensures var r := Step(s, EditProduct(p, name, status));
      && (r.Ok? <==> p in s.products)
      && (r.Ok? ==> r.value == s.(products := s.products[p := s.products[p].(name := name, status := status)]))
  {
  }

  lemma ListingMeaning(s: State, l: nat, article: string, title: string)
    ensures Step(s, NewListing(article, title))
         == Ok(s.(listings := s.listings[s.nextListing := Listing(article, title, Mapped(None, Unmatched))],
                  history := s.history[s.nextListing := []], nextListing := s.nextListing + 1))
    ensures var r := Step(s, UpdateListing(l, article, title));
      && (r.Ok? <==> l in s.listings && l in s.history)
      && (r.Ok? ==> r.value == s.(listings := s.listings[l := s.listings[l].(article := article, title := title)]))
  {
  }

  // ---------- manual changes ----------

  /** The listing's mapping is replaced and one record is appended. */
  ghost function Recorded(s: State, l: nat, mapping: Mapped, record: Record): State
    requires l in s.listings && l in s.history
  {
    s.(listings := s.listings[l := s.listings[l].(mapping := mapping)],
       history := s.history[l := s.history[l] + [record]])
  }

  /** A change is accepted for variants that exist: mapping needs a target, and unmapping ends unmatched unless another
      open status is asked for. The new mapping keeps the variant of the caller's object under a marker. */
  lemma ChangeMeaning(s: State, l: nat, handle: Mapped, action: Action, target: Option<nat>,
                      unmapTo: Option<MappingStatus>)
    ensures var r := Step(s, Change(l, handle, action, target, unmapTo));
      && (r.Ok? <==>
            && l in s.listings && l in s.history && (handle.variant.Some? ==> handle.variant.value in s.variants)
            && (target.Some? ==> target.value in s.variants) && (action == MapAction ==> target.Some?)
            && (action == UnmapAction && unmapTo.Some? ==> unmapTo.value in {Unmatched, NeedsReview, Conflict}))
      && (r.Ok? ==>
            var mapping := match action
                           case MapAction => Mapped(target, Matched)
                           case UnmapAction => Mapped(None, if unmapTo.Some? then unmapTo.value else Unmatched)
                           case ReviewMarker => Mapped(handle.variant, NeedsReview)
                           case ConflictMarker => Mapped(handle.variant, Conflict);
            r.value == Recorded(s, l, mapping, Record(action, mapping.status, handle.variant, target)))
  {
  }

  /** Several candidates flag an unmapped listing as a conflict, a single one as needing review; a flag that is as
      strong already stays, and so does everything else. */
  lemma RefreshMeaning(s: State, l: nat, handle: Mapped, candidates: set<nat>)
    requires l in s.listings && l in s.history
    ensures var several := |candidates| > 1; var flag := if several then Conflict else NeedsReview;
      var flags := handle.variant.None? && candidates != {}
                   && handle.status !in (if several then {ArchivedMapping, Conflict}
                                         else {ArchivedMapping, NeedsReview, Conflict});
      Step(s, Refresh(l, handle, candidates))
      == Ok(if flags then Recorded(s, l, Mapped(None, flag),
                                   Record(if several then ConflictMarker else ReviewMarker, flag, None, None))
            else s)
  {
    if candidates != {} { assert |candidates| > 0; }
  }

  // ---------- linkage ----------

  ghost predicate Holds(s: State, v: nat, sku: string) { v in s.variants && s.variants[v].sku == sku }

  ghost predicate LiveVariant(s: State, v: nat) {
    && v in s.variants && s.variants[v].status == Live && s.variants[v].product in s.products
    && s.products[s.variants[v].product].status == Live
  }

  ghost predicate HasCode(s: State, p: nat, code: string) { p in s.products && s.products[p].code == code }

  /** The object's variant does not hold the SKU, a holder is not live, or nobody holds it and the product of that code
      is not live. */
  ghost predicate Unsafe(s: State, seen: Listing, sku: string) {
    || (seen.mapping.variant.Some? && !Holds(s, seen.mapping.variant.value, sku))
    || (exists v :: Holds(s, v, sku) && !LiveVariant(s, v))
    || ((forall v :: !Holds(s, v, sku)) && exists p :: HasCode(s, p, sku) && s.products[p].status != Live)
  }

  lemma HoldersIff(s: State, sku: string)
    ensures forall v :: v in Holding(s.variants, sku) <==> Holds(s, v, sku)
    ensures forall p :: p in Coded(s.products, sku) <==> HasCode(s, p, sku)
    ensures Holding(s.variants, sku) == {} <==> forall v :: !Holds(s, v, sku)
  {
    if Holding(s.variants, sku) != {} {
      var v :| v in Holding(s.variants, sku);
      assert Holds(s, v, sku);
    }
  }

  lemma UnsafeIff(s: State, seen: Listing, sku: string)
    ensures UnsafeFor(s, seen, sku) <==> Unsafe(s, seen, sku)
  {
    HoldersIff(s, sku);
    forall v ensures SafeVariant(s, v) <==> LiveVariant(s, v) {
    }
    if exists v | v in Holding(s.variants, sku) :: !SafeVariant(s, v) {
      var v :| v in Holding(s.variants, sku) && !SafeVariant(s, v);
      assert Holds(s, v, sku) && !LiveVariant(s, v);
    }
    if v :| Holds(s, v, sku) && !LiveVariant(s, v) { assert v in Holding(s.variants, sku); }
    if exists p | p in Coded(s.products, sku) :: !s.products[p].status.Live? {
      var p :| p in Coded(s.products, sku) && !s.products[p].status.Live?;
      assert HasCode(s, p, sku) && s.products[p].status != Live;
    }
    if p :| HasCode(s, p, sku) && s.products[p].status != Live { assert p in Coded(s.products, sku); }
  }

  /** The name of what a linkage creates. */
  ghost function NameOf(seen: Listing, sku: string): string {
    if Strip(seen.title) == "" then sku else Strip(seen.title)
  }

  /** The title is none of the variant's names. */
  ghost predicate NewTitle(s: State, v: nat, seen: Listing)
    requires v in s.variants && s.variants[v].product in s.products
  {
    Strip(seen.title) != "" && Strip(seen.title) != s.variants[v].name
    && Strip(seen.title) != s.products[s.variants[v].product].name
  }

  ghost function MatchRecord(seen: Listing, v: nat): Record {
    Record(MapAction, Matched, seen.mapping.variant, Some(v))
  }

  /** The listing is matched to the variant and the record says so. */
  ghost predicate NowMatched(s: State, t: State, l: nat, seen: Listing, v: nat)
    requires l in s.listings && l in s.history
  {
    && t.listings == s.listings[l := s.listings[l].(mapping := Mapped(Some(v), Matched))]
    && t.history == s.history[l := s.history[l] + [MatchRecord(seen, v)]]
  }

  /** Matched to the live holder, whose review state changes only for a new title. */
  ghost predicate MatchedHolder(s: State, t: State, l: nat, seen: Listing, sku: string, v: nat)
    requires l in s.listings && l in s.history
  {
    && Holds(s, v, sku) && LiveVariant(s, v) && NowMatched(s, t, l, seen, v) && t.products == s.products
    && t.variants == if NewTitle(s, v, seen) then s.variants[v := s.variants[v].(review := ReviewNeeded)]
                     else s.variants
  }

  ghost predicate DraftUnder(s: State, t: State, sku: string, name: string, p: nat) {
    && t.variants == s.variants[s.nextVariant := Variant(p, sku, name, Live, ImportedDraft)]
    && if HasCode(s, p, sku) then s.products[p].status == Live && t.products == s.products
       else p == s.nextProduct && (forall q :: !HasCode(s, q, sku))
            && t.products == s.products[p := Product(sku, name, Live)]
  }

  /** Matched to a new draft of the SKU, under the live product of that code or a new one. */
  ghost predicate MatchedDraft(s: State, t: State, l: nat, seen: Listing, sku: string)
    requires l in s.listings && l in s.history
  {
    && NowMatched(s, t, l, seen, s.nextVariant)
    && exists p :: DraftUnder(s, t, sku, NameOf(seen, sku), p)
  }

  /** Only the status changes, to conflict, with a record; an object in conflict already writes nothing. */
  ghost predicate FlaggedConflict(s: State, t: State, l: nat, seen: Listing)
    requires l in s.listings && l in s.history
  {
    if seen.mapping.status == Conflict then t == s
    else t == Mapping.Write(s, l, s.listings[l].mapping.(status := Conflict),
                            Record(ConflictMarker, Conflict, seen.mapping.variant, seen.mapping.variant))
  }

  lemma ReviewedMeaning(s: State, v: nat, seen: Listing)
    requires v in s.variants && s.variants[v].product in s.products
    ensures Reviewed(s, v, Strip(seen.title))
         == if NewTitle(s, v, seen) then s.(variants := s.variants[v := s.variants[v].(review := ReviewNeeded)]) else s
  {
  }

  lemma HolderLinked(s: State, l: nat, seen: Listing, sku: string, v: nat)
    requires Inv(s) && Known(s, l) && SafeVariant(s, v) && s.variants[v].sku == sku
    requires seen.mapping.variant.None? || seen.mapping.variant == Some(v)
    ensures MatchedHolder(s, Link(s, l, seen, v), l, seen, sku, v)
  {
    ReviewedMeaning(Mapping.Write(s, l, Mapped(Some(v), Matched), MatchRecord(seen, v)), v, seen);
  }

  lemma DraftCreated(s: State, seen: Listing, sku: string)
    requires Inv(s) && sku != "" && Holding(s.variants, sku) == {} && !ResolveParent(s, sku).Unsafe? && |sku| <= 64
    ensures CreateFor(s, sku, Strip(seen.title)).Ok?
    ensures var t := CreateFor(s, sku, Strip(seen.title)).value;
      && t.listings == s.listings && t.history == s.history
      && s.nextVariant in t.variants && t.variants[s.nextVariant].name == NameOf(seen, sku)
      && exists p :: DraftUnder(s, t, sku, NameOf(seen, sku), p)
  {
    HoldersIff(s, sku);
    var all := Coded(s.products, sku);
    ResolveMeaning(all, set p | p in all && s.products[p].status.Live?);
    var t := CreateFor(s, sku, Strip(seen.title)).value;
    var p := t.variants[s.nextVariant].product;
    if all == {} { assert p == s.nextProduct && s.nextProduct !in s.products; }
    assert DraftUnder(s, t, sku, NameOf(seen, sku), p);
  }

  lemma DraftUnflagged(t: State, seen: Listing, sku: string, v: nat)
    requires v in t.variants && t.variants[v].name == NameOf(seen, sku)
    ensures Reviewed(t, v, Strip(seen.title)) == t
  {
  }

  lemma DraftLinked(s: State, l: nat, seen: Listing, sku: string)
    requires Inv(s) && Known(s, l) && sku != "" && Holding(s.variants, sku) == {} && !ResolveParent(s, sku).Unsafe?
    requires |sku| <= 64 && seen.mapping.variant.None?
    ensures CreateFor(s, sku, Strip(seen.title)).Ok?
    ensures var t := CreateFor(s, sku, Strip(seen.title)).value;
      s.nextVariant in t.variants && Known(t, l) && MatchedDraft(s, Link(t, l, seen, s.nextVariant), l, seen, sku)
  {
    DraftCreated(s, seen, sku);
    var t := CreateFor(s, sku, Strip(seen.title)).value;
    var w := Mapping.Write(t, l, Mapped(Some(s.nextVariant), Matched), MatchRecord(seen, s.nextVariant));
    DraftUnflagged(w, seen, sku, s.nextVariant);
    var p :| DraftUnder(s, t, sku, NameOf(seen, sku), p);
    assert DraftUnder(s, w, sku, NameOf(seen, sku), p);
  }

  lemma UnsafeLinked(s: State, l: nat, seen: Listing, sku: string)
    requires Inv(s) && Known(s, l) && sku != "" && UnsafeFor(s, seen, sku)
    ensures LinkBySku(s, l, seen, sku).Ok? && FlaggedConflict(s, LinkBySku(s, l, seen, sku).value, l, seen)
  {
    SafetyByResolution(s, seen, sku);
  }

  lemma HeldLinked(s: State, l: nat, seen: Listing, sku: string, v: nat)
    requires Inv(s) && Known(s, l) && sku != "" && !UnsafeFor(s, seen, sku) && v in Holding(s.variants, sku)
    ensures LinkBySku(s, l, seen, sku).Ok? && MatchedHolder(s, LinkBySku(s, l, seen, sku).value, l, seen, sku, v)
  {
    SafetyByResolution(s, seen, sku);
    VariantResolution(s, sku);
    LaterConflictsUnreachable(s, seen, sku);
    assert ResolveVariant(s, sku) == One(v);
    HolderLinked(s, l, seen, sku, v);
  }

  lemma UnheldLinked(s: State, l: nat, seen: Listing, sku: string)
    requires Inv(s) && Known(s, l) && sku != "" && !UnsafeFor(s, seen, sku) && Holding(s.variants, sku) == {}
    ensures LinkBySku(s, l, seen, sku).Raised? <==> |sku| > 64
    ensures LinkBySku(s, l, seen, sku).Ok? ==> MatchedDraft(s, LinkBySku(s, l, seen, sku).value, l, seen, sku)
  {
    SafetyByResolution(s, seen, sku);
    VariantResolution(s, sku);
    LaterConflictsUnreachable(s, seen, sku);
    ApiLinkOutcome(s, l, seen, sku);
    if |sku| <= 64 { DraftLinked(s, l, seen, sku); }
  }

  /** Linking by a SKU: it raises only for want of a product code short enough, flags a conflict exactly when that is
      unsafe, and else matches the listing to the live holder or a new draft. */
  lemma LinkMeaning(s: State, l: nat, seen: Listing, sku: string)
    requires Inv(s) && Known(s, l) && sku != ""
    ensures var r := LinkBySku(s, l, seen, sku);
      && (r.Raised? <==> seen.mapping.variant.None? && (forall v :: !Holds(s, v, sku)) && |sku| > 64)
      && (r.Ok? && Unsafe(s, seen, sku) ==> FlaggedConflict(s, r.value, l, seen))
      && (r.Ok? && !Unsafe(s, seen, sku) ==>
            && (forall v :: Holds(s, v, sku) ==> MatchedHolder(s, r.value, l, seen, sku, v))
            && ((forall v :: !Holds(s, v, sku)) ==> MatchedDraft(s, r.value, l, seen, sku)))
  {
    UnsafeIff(s, seen, sku);
    HoldersIff(s, sku);
    if UnsafeFor(s, seen, sku) {
      UnsafeLinked(s, l, seen, sku);
      if seen.mapping.variant.None? && forall v :: !Holds(s, v, sku) { NoHolderUnsafe(s, seen, sku); }
    } else if Holding(s.variants, sku) == {} {
      UnheldLinked(s, l, seen, sku);
      LaterConflictsUnreachable(s, seen, sku);
      VariantResolution(s, sku);
      SafetyByResolution(s, seen, sku);
    } else {
      forall v | Holds(s, v, sku)
        ensures LinkBySku(s, l, seen, sku).Ok? && MatchedHolder(s, LinkBySku(s, l, seen, sku).value, l, seen, sku, v) {
        HeldLinked(s, l, seen, sku, v);
      }
    }
  }

  /** A product that long cannot have the code. */
  lemma NoHolderUnsafe(s: State, seen: Listing, sku: string)
    requires Inv(s) && seen.mapping.variant.None? && (forall v :: !Holds(s, v, sku)) && UnsafeFor(s, seen, sku)
    ensures |sku| <= 64
  {
    HoldersIff(s, sku);
    UnsafeIff(s, seen, sku);
    var p :| HasCode(s, p, sku);
  }

  /** An up-to-date object: a manual change, a refresh or a linkage is given the stored variant of its listing, if the
      listing exists; no other command is given an object. */
  lemma FreshMeaning(s: State, c: Command)
    ensures Fresh(s, c) <==>
              forall l :: Known(s, l) ==>
                && (c.Change? && c.listing == l ==> c.handle.variant == s.listings[l].mapping.variant)
                && (c.Refresh? && c.listing == l ==> c.handle.variant == s.listings[l].mapping.variant)
                && (c.ApiLink? && c.listing == l ==> c.seen.mapping.variant == s.listings[l].mapping.variant)
  {
  }
}
