/** The CORE-2 internal SKU: its pattern, the traits read from it, and the round trip between them. */
module Sku {
  import opened Common
  import opened Decimals

  // ---------- regular expressions ----------

  datatype Regex = Words(words: set<string>) | Range(lo: char, hi: char) | Cat(a: Regex, b: Regex)
                 | Opt(r: Regex) | Star(r: Regex)

  function Lit(text: string): Regex { Words({text}) }

  /** `re.fullmatch`: the whole of `s` is in the language. */
  ghost predicate Matches(re: Regex, s: string)
    decreases re, |s|
  {
    match re
    case Words(words) => s in words
    case Range(lo, hi) => |s| == 1 && lo <= s[0] <= hi
    case Cat(a, b) => exists i :: 0 <= i <= |s| && Matches(a, s[..i]) && Matches(b, s[i..])
    case Opt(r) => s == "" || Matches(r, s)
    case Star(r) => s == "" || exists i :: 0 < i <= |s| && Matches(r, s[..i]) && Matches(re, s[i..])
  }

  const TYPE := Words({"nash", "chev"})
  const PURPOSE := Words({"pz", "back"})
  const DIGIT := Range('0', '9')
  const KIT := Cat(Lit("kit"), Cat(Range('1', '9'), Star(DIGIT)))
  const STRUCTURE := Words({"mvd", "fsin", "rg", "fso", "fsb", "fssp"})
  const CONTENT := Words({"text", "pict"})
  const SUFFIX := Cat(DIGIT, Cat(DIGIT, Cat(DIGIT, DIGIT)))

  function Optional(r: Regex): Regex { Opt(Cat(Lit("_"), r)) }

  const PATTERN :=
    Cat(TYPE, Cat(Optional(PURPOSE), Cat(Optional(KIT), Cat(Optional(STRUCTURE), Cat(Lit("_"), Cat(CONTENT, SUFFIX))))))

  lemma CatIntro(a: Regex, b: Regex, x: string, y: string)
    requires Matches(a, x) && Matches(b, y)
    ensures Matches(Cat(a, b), x + y)
  {
    assert (x + y)[..|x|] == x && (x + y)[|x|..] == y;
  }

  lemma CatElim(a: Regex, b: Regex, s: string) returns (x: string, y: string)
    requires Matches(Cat(a, b), s)
    ensures s == x + y && Matches(a, x) && Matches(b, y)
  {
    var i :| 0 <= i <= |s| && Matches(a, s[..i]) && Matches(b, s[i..]);
    x, y := s[..i], s[i..];
  }

  lemma {:induction false} StarDigits(s: string)
    ensures Matches(Star(DIGIT), s) <==> AllDigits(s)
    decreases |s|
  {
    if s != [] {
      StarDigits(s[1..]);
      assert s == [s[0]] + s[1..];
      if AllDigits(s) {
        assert Matches(DIGIT, s[..1]) && Matches(Star(DIGIT), s[1..]);
      }
      if Matches(Star(DIGIT), s) {
        var i :| 0 < i <= |s| && Matches(DIGIT, s[..i]) && Matches(Star(DIGIT), s[i..]);
        assert i == 1 && s[..1][0] == s[0];
      }
    }
  }

  // ---------- traits ----------

  datatype Traits = Traits(productType: string, purpose: Option<string>, kit: Option<string>,
                           structure: Option<string>, contentType: string, suffix: string)

  predicate IsType(s: string) { s == "nash" || s == "chev" }

  predicate IsPurpose(s: string) { s == "pz" || s == "back" }

  predicate IsKit(s: string) { |s| >= 4 && s[..3] == "kit" && '1' <= s[3] <= '9' && AllDigits(s[4..]) }

  predicate IsStructure(s: string) { s == "mvd" || s == "fsin" || s == "rg" || s == "fso" || s == "fsb" || s == "fssp" }

  predicate IsContent(s: string) { s == "text" || s == "pict" }

  predicate IsSuffix(s: string) { |s| == 4 && AllDigits(s) }

  predicate Valid(t: Traits) {
    && IsType(t.productType) && IsContent(t.contentType) && IsSuffix(t.suffix)
    && (t.purpose.Some? ==> IsPurpose(t.purpose.value))
    && (t.kit.Some? ==> IsKit(t.kit.value))
    && (t.structure.Some? ==> IsStructure(t.structure.value))
  }

  function Part(token: Option<string>): string { if token.Some? then "_" + token.value else "" }

  /** Product type, purpose, kit, structure, content type and suffix, joined back into a SKU. */
  function Render(t: Traits): string {
    t.productType + (Part(t.purpose) + (Part(t.kit) + (Part(t.structure) + ("_" + (t.contentType + t.suffix)))))
  }

  lemma AltLanguages(s: string)
    ensures Matches(TYPE, s) <==> IsType(s)
    ensures Matches(PURPOSE, s) <==> IsPurpose(s)
    ensures Matches(STRUCTURE, s) <==> IsStructure(s)
    ensures Matches(CONTENT, s) <==> IsContent(s)
  {
  }

  lemma KitLanguage(s: string)
    ensures Matches(KIT, s) <==> IsKit(s)
  {
    var tail := Cat(Range('1', '9'), Star(DIGIT));
    if Matches(KIT, s) {
      var x, y := CatElim(Lit("kit"), tail, s);
      var d, ds := CatElim(Range('1', '9'), Star(DIGIT), y);
      StarDigits(ds);
      assert s[..3] == "kit" && s[3] == d[0] && s[4..] == ds;
    }
    if IsKit(s) {
      StarDigits(s[4..]);
      CatIntro(Range('1', '9'), Star(DIGIT), [s[3]], s[4..]);
      CatIntro(Lit("kit"), tail, "kit", [s[3]] + s[4..]);
      assert s == "kit" + ([s[3]] + s[4..]);
    }
  }

  /** A digit followed by a word of another language. */
  lemma DigitThen(r: Regex, s: string)
    ensures Matches(Cat(DIGIT, r), s) <==> s != "" && IsDigit(s[0]) && Matches(r, s[1..])
  {
    if Matches(Cat(DIGIT, r), s) {
      var x, y := CatElim(DIGIT, r, s);
      assert s[1..] == y;
    }
    if s != "" && IsDigit(s[0]) && Matches(r, s[1..]) {
      CatIntro(DIGIT, r, [s[0]], s[1..]);
      assert s == [s[0]] + s[1..];
    }
  }

  lemma TwoDigits(s: string)
    ensures Matches(Cat(DIGIT, DIGIT), s) <==> |s| == 2 && AllDigits(s)
  {
    DigitThen(DIGIT, s);
  }

  lemma ThreeDigits(s: string)
    ensures Matches(Cat(DIGIT, Cat(DIGIT, DIGIT)), s) <==> |s| == 3 && AllDigits(s)
  {
    DigitThen(Cat(DIGIT, DIGIT), s);
    if s != "" {
      TwoDigits(s[1..]);
      FirstDigit(s);
    }
  }

  lemma FirstDigit(s: string)
    requires s != ""
    ensures AllDigits(s) <==> IsDigit(s[0]) && AllDigits(s[1..])
  {
    assert s == [s[0]] + s[1..];
  }

  lemma SuffixLanguage(s: string)
    ensures Matches(SUFFIX, s) <==> IsSuffix(s)
  {
    DigitThen(Cat(DIGIT, Cat(DIGIT, DIGIT)), s);
    if s != "" {
      ThreeDigits(s[1..]);
      FirstDigit(s);
    }
  }

  lemma OptionalElim(r: Regex, s: string) returns (token: Option<string>)
    requires Matches(Optional(r), s)
    ensures s == Part(token) && (token.Some? ==> Matches(r, token.value))
  {
    if s == "" {
      token := None;
    } else {
      var x, y := CatElim(Lit("_"), r, s);
      token := Some(y);
    }
  }

  lemma OptionalIntro(r: Regex, token: Option<string>)
    requires token.Some? ==> Matches(r, token.value)
    ensures Matches(Optional(r), Part(token))
  {
    if token.Some? { CatIntro(Lit("_"), r, "_", token.value); }
  }

  /** Every string the pattern accepts is the rendering of a valid tuple of traits. */
  lemma PatternElim(s: string) returns (t: Traits)
    requires Matches(PATTERN, s)
    ensures Valid(t) && Render(t) == s
  {
    var r4 := Cat(Lit("_"), Cat(CONTENT, SUFFIX));
    var r3 := Cat(Optional(STRUCTURE), r4);
    var r2 := Cat(Optional(KIT), r3);
    var r1 := Cat(Optional(PURPOSE), r2);
    var productType, s1 := CatElim(TYPE, r1, s);
    var p, s2 := CatElim(Optional(PURPOSE), r2, s1);
    var k, s3 := CatElim(Optional(KIT), r3, s2);
    var g, s4 := CatElim(Optional(STRUCTURE), r4, s3);
    var u, s5 := CatElim(Lit("_"), Cat(CONTENT, SUFFIX), s4);
    var content, suffix := CatElim(CONTENT, SUFFIX, s5);
    var purpose := OptionalElim(PURPOSE, p);
    var kit := OptionalElim(KIT, k);
    var structure := OptionalElim(STRUCTURE, g);
    t := Traits(productType, purpose, kit, structure, content, suffix);
    AltLanguages(productType);
    AltLanguages(content);
    SuffixLanguage(suffix);
    if purpose.Some? { AltLanguages(purpose.value); }
    if kit.Some? { KitLanguage(kit.value); }
    if structure.Some? { AltLanguages(structure.value); }
  }

  lemma PatternIntro(t: Traits)
    requires Valid(t)
    ensures Matches(PATTERN, Render(t))
  {
    AltLanguages(t.productType);
    AltLanguages(t.contentType);
    SuffixLanguage(t.suffix);
    if t.purpose.Some? { AltLanguages(t.purpose.value); }
    if t.kit.Some? { KitLanguage(t.kit.value); }
    if t.structure.Some? { AltLanguages(t.structure.value); }
    OptionalIntro(PURPOSE, t.purpose);
    OptionalIntro(KIT, t.kit);
    OptionalIntro(STRUCTURE, t.structure);
    var r4 := Cat(Lit("_"), Cat(CONTENT, SUFFIX));
    var r3 := Cat(Optional(STRUCTURE), r4);
    var r2 := Cat(Optional(KIT), r3);
    var r1 := Cat(Optional(PURPOSE), r2);
    var s5 := t.contentType + t.suffix;
    CatIntro(CONTENT, SUFFIX, t.contentType, t.suffix);
    CatIntro(Lit("_"), Cat(CONTENT, SUFFIX), "_", s5);
    CatIntro(Optional(STRUCTURE), r4, Part(t.structure), "_" + s5);
    CatIntro(Optional(KIT), r3, Part(t.kit), Part(t.structure) + ("_" + s5));
    CatIntro(Optional(PURPOSE), r2, Part(t.purpose), Part(t.kit) + (Part(t.structure) + ("_" + s5)));
    CatIntro(TYPE, r1, t.productType, Part(t.purpose) + (Part(t.kit) + (Part(t.structure) + ("_" + s5))));
  }

  // ---------- reading the traits ----------

  /** Python's `s.split("_")`. */
  function Split(s: string): (tokens: seq<string>)
    ensures tokens != []
  {
    if s == [] then [""]
    else
      var rest := Split(s[1..]);
      if s[0] == '_' then [""] + rest else [[s[0]] + rest[0]] + rest[1..]
  }

  function StartsWith(s: string, prefix: string): bool { prefix <= s }

  function Classify(t: Traits, token: string): Traits {
    if IsPurpose(token) then t.(purpose := Some(token))
    else if StartsWith(token, "kit") then t.(kit := Some(token))
    else if IsStructure(token) then t.(structure := Some(token))
    else t
  }

  function ClassifyAll(t: Traits, tokens: seq<string>): Traits
    decreases |tokens|
  {
    if tokens == [] then t else Classify(ClassifyAll(t, tokens[..|tokens| - 1]), tokens[|tokens| - 1])
  }

  function Ends(tokens: seq<string>): Traits
    requires tokens != []
  {
    var last := tokens[|tokens| - 1];
    var content := if StartsWith(last, "text") then "text" else "pict";
    Traits(tokens[0], None, None, None, content, if StartsWith(last, content) then last[4..] else last)
  }

  function Middle(tokens: seq<string>): seq<string> {
    if |tokens| < 2 then [] else tokens[1..|tokens| - 1]
  }

  function TraitsOf(sku: string): Traits {
    var tokens := Split(sku);
    ClassifyAll(Ends(tokens), Middle(tokens))
  }

  method ArticleTraits(sku: string) returns (traits: Traits)
    ensures traits == TraitsOf(sku)
    ensures Matches(PATTERN, sku) ==> Valid(traits) && Render(traits) == sku
  {
    var tokens := Split(sku);
    var optional := Middle(tokens);
    traits := Ends(tokens);
    for n := 0 to |optional|
      invariant traits == ClassifyAll(Ends(tokens), optional[..n])
    {
      var token := optional[n];
      assert optional[..n + 1][..n] == optional[..n];
      if IsPurpose(token) {
        traits := traits.(purpose := Some(token));
      } else if StartsWith(token, "kit") {
        traits := traits.(kit := Some(token));
      } else if IsStructure(token) {
        traits := traits.(structure := Some(token));
      }
    }
    assert optional[..|optional|] == optional;
    if Matches(PATTERN, sku) {
      var t := PatternElim(sku);
      TraitsOfRender(t);
    }
  }

  // ---------- round trip ----------

  predicate NoMark(s: string) { forall i :: 0 <= i < |s| ==> s[i] != '_' }

  lemma {:induction false} SplitPlain(s: string)
    requires NoMark(s)
    ensures Split(s) == [s]
  {
    if s != [] {
      SplitPlain(s[1..]);
      assert s == [s[0]] + s[1..];
    }
  }

  lemma {:induction false} SplitMark(s: string, rest: string)
    requires NoMark(s)
    ensures Split(s + "_" + rest) == [s] + Split(rest)
  {
    var whole := s + "_" + rest;
    if s == [] {
      assert whole == "_" + rest && whole[1..] == rest;
    } else {
      assert whole[1..] == s[1..] + "_" + rest;
      SplitMark(s[1..], rest);
      assert s == [s[0]] + s[1..];
    }
  }

  function Listed(token: Option<string>): seq<string> { if token.Some? then [token.value] else [] }

  function LastToken(t: Traits): string { t.contentType + t.suffix }

  lemma TokensNoMark(t: Traits)
    requires Valid(t)
    ensures NoMark(t.productType) && NoMark(LastToken(t))
    ensures t.purpose.Some? ==> NoMark(t.purpose.value)
    ensures t.kit.Some? ==> NoMark(t.kit.value)
    ensures t.structure.Some? ==> NoMark(t.structure.value)
  {
    if t.kit.Some? {
      var k := t.kit.value;
      assert k == k[..3] + [k[3]] + k[4..];
    }
  }

  lemma SplitTwice(a: string, b: string, rest: string)
    requires NoMark(a) && NoMark(b)
    ensures Split(a + "_" + (b + "_" + rest)) == [a, b] + Split(rest)
  {
    SplitMark(a, b + "_" + rest);
    SplitMark(b, rest);
  }

  lemma PartShape(before: string, token: Option<string>, rest: string)
    ensures before + (Part(token) + ("_" + rest)) ==
            before + "_" + (if token.Some? then token.value + "_" + rest else rest)
    ensures (Part(token) + ("_" + rest))[1..] == if token.Some? then token.value + "_" + rest else rest
  {
  }

  /** Splitting `before`, an optional part and the tokens after it. */
  lemma SplitPart(before: string, token: Option<string>, rest: string)
    requires NoMark(before) && (token.Some? ==> NoMark(token.value))
    ensures Split(before + (Part(token) + ("_" + rest))) == [before] + (Listed(token) + Split(rest))
  {
    PartShape(before, token, rest);
    if token.Some? {
      SplitTwice(before, token.value, rest);
    } else {
      SplitMark(before, rest);
    }
  }

  /** An optional part followed by more tokens, without its leading separator. */
  lemma SplitLeading(token: Option<string>, rest: string)
    requires token.Some? ==> NoMark(token.value)
    ensures Split((Part(token) + ("_" + rest))[1..]) == Listed(token) + Split(rest)
  {
    PartShape("", token, rest);
    if token.Some? { SplitMark(token.value, rest); }
  }

  lemma SplitParts(first: string, p: Option<string>, k: Option<string>, g: Option<string>, last: string)
    requires NoMark(first) && NoMark(last) && (p.Some? ==> NoMark(p.value))
    requires (k.Some? ==> NoMark(k.value)) && (g.Some? ==> NoMark(g.value))
    ensures Split(first + (Part(p) + (Part(k) + (Part(g) + ("_" + last))))) ==
            [first] + (Listed(p) + (Listed(k) + (Listed(g) + [last])))
  {
    var s3 := Part(g) + ("_" + last);
    var s2 := Part(k) + s3;
    assert s3 == "_" + s3[1..];
    assert s2 == "_" + s2[1..];
    SplitPlain(last);
    SplitLeading(g, last);
    SplitLeading(k, s3[1..]);
    SplitPart(first, p, s2[1..]);
  }

  lemma SplitRender(t: Traits)
    requires Valid(t)
    ensures Split(Render(t)) == [t.productType] + (Listed(t.purpose)
                                                   + (Listed(t.kit) + (Listed(t.structure) + [LastToken(t)])))
  {
    TokensNoMark(t);
    SplitParts(t.productType, t.purpose, t.kit, t.structure, LastToken(t));
  }

  /** Splitting a rendered SKU recovers exactly the traits it was rendered from. */
  lemma TraitsOfRender(t: Traits)
    requires Valid(t)
    ensures TraitsOf(Render(t)) == t
  {
    SplitRender(t);
    var tokens := Split(Render(t));
    var ends := Traits(t.productType, None, None, None, t.contentType, t.suffix);
    assert Ends(tokens) == ends;
    var middle := Listed(t.purpose) + Listed(t.kit) + Listed(t.structure);
    assert Middle(tokens) == middle;
    ClassifyListed(ends, t);
  }

  lemma ClassifyToken(t: Traits, token: string)
    ensures IsPurpose(token) ==> Classify(t, token) == t.(purpose := Some(token))
    ensures IsKit(token) ==> Classify(t, token) == t.(kit := Some(token))
    ensures IsStructure(token) ==> Classify(t, token) == t.(structure := Some(token))
  {
    if IsStructure(token) {
      assert token[0] != 'k' && "kit"[0] == 'k';
    }
    if IsKit(token) {
      assert token[0] == token[..3][0] == 'k';
    }
  }

  lemma ClassifyOptional(t: Traits, tokens: seq<string>, token: Option<string>)
    ensures ClassifyAll(t, tokens + Listed(token)) ==
            if token.Some? then Classify(ClassifyAll(t, tokens), token.value) else ClassifyAll(t, tokens)
  {
    if token.Some? {
      assert (tokens + [token.value])[..|tokens|] == tokens;
    } else {
      assert tokens + [] == tokens;
    }
  }

  lemma ClassifyListed(ends: Traits, t: Traits)
    requires Valid(t) && ends == Traits(t.productType, None, None, None, t.contentType, t.suffix)
    ensures ClassifyAll(ends, Listed(t.purpose) + Listed(t.kit) + Listed(t.structure)) == t
  {
    var t1, t2 := ends.(purpose := t.purpose), ends.(purpose := t.purpose, kit := t.kit);
    assert [] + Listed(t.purpose) == Listed(t.purpose);
    ClassifyOptional(ends, [], t.purpose);
    ClassifyOptional(ends, Listed(t.purpose), t.kit);
    ClassifyOptional(ends, Listed(t.purpose) + Listed(t.kit), t.structure);
    if t.purpose.Some? { ClassifyToken(ends, t.purpose.value); }
    if t.kit.Some? { ClassifyToken(t1, t.kit.value); }
    if t.structure.Some? { ClassifyToken(t2, t.structure.value); }
  }

  /** For every accepted SKU, of any kit number, joining the traits read from it gives it back. */
  lemma SkuRoundTrip(sku: string)
    requires Matches(PATTERN, sku)
    ensures Valid(TraitsOf(sku)) && Render(TraitsOf(sku)) == sku
  {
    var t := PatternElim(sku);
    TraitsOfRender(t);
  }

  lemma DistinctTraitsDistinctSkus(a: Traits, b: Traits)
    requires Valid(a) && Valid(b)
    ensures Render(a) == Render(b) <==> a == b
  {
    TraitsOfRender(a);
    TraitsOfRender(b);
  }

  /** A decision procedure for the pattern: the traits are valid and render back. */
  predicate Accepts(sku: string) { Valid(TraitsOf(sku)) && Render(TraitsOf(sku)) == sku }

  lemma AcceptsIffMatches(sku: string)
    ensures Accepts(sku) <==> Matches(PATTERN, sku)
  {
    if Accepts(sku) { PatternIntro(TraitsOf(sku)); }
    if Matches(PATTERN, sku) { SkuRoundTrip(sku); }
  }

  /** The API's reading of a seller article: the trimmed article when it is a valid SKU, else nothing. */
  function ValidApiSku(article: string): string {
    if Accepts(Strip(article)) then Strip(article) else ""
  }

  lemma BlankUnmatched()
    ensures !Matches(PATTERN, "")
  {
    if Matches(PATTERN, "") { var t := PatternElim(""); }
  }

  /** An article is read as a SKU exactly when it is that SKU between blanks and the pattern matches it. */
  lemma ApiSkuIff(article: string, sku: string)
    ensures sku != "" && ValidApiSku(article) == sku <==>
              Matches(PATTERN, sku) && exists a, b :: Blank(a) && Blank(b) && article == a + sku + b
    ensures ValidApiSku(article) == "" <==> !Matches(PATTERN, Strip(article))
  {
    BlankUnmatched();
    AcceptsIffMatches(Strip(article));
    StripIff(article, sku);
    if Matches(PATTERN, sku) { MatchedIsBare(sku); }
  }

  lemma MatchedIsBare(sku: string)
    requires Matches(PATTERN, sku)
    ensures Bare(sku)
  {
    var t := PatternElim(sku);
    assert sku[0] == t.productType[0] && sku[|sku| - 1] == t.suffix[3];
  }

  function Nines(n: nat): (s: string)
    ensures |s| == n && AllDigits(s)
  {
    seq(n, _ => '9')
  }

  lemma StripPlain(s: string)
    requires s != "" && !IsSpace(s[0]) && !IsSpace(s[|s| - 1])
    ensures Strip(s) == s
  {
  }

  /** There are such SKUs: a kit number of any length is accepted. */
  lemma LongSkuExists(n: nat) returns (sku: string)
    requires n > 0
    ensures Matches(PATTERN, sku) && |sku| == n + 17 && ValidApiSku(sku) == sku
  {
    var t := Traits("nash", None, Some("kit" + Nines(n)), None, "text", "0001");
    assert ("kit" + Nines(n))[..3] == "kit" && ("kit" + Nines(n))[4..] == Nines(n)[1..];
    PatternIntro(t);
    sku := Render(t);
    AcceptsIffMatches(sku);
    assert sku[0] == 'n' && sku[|sku| - 1] == t.suffix[3] == '1';
    StripPlain(sku);
  }

  /** Only a kit number of more than 37 digits makes an accepted SKU longer than a product code may be. */
  lemma LongSkuHasLongKit(sku: string)
    requires Matches(PATTERN, sku) && |sku| > 64
    ensures TraitsOf(sku).kit.Some? && |TraitsOf(sku).kit.value| > 3 + 37
  {
    SkuRoundTrip(sku);
  }
}
