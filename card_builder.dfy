/**
 * Card presentation helpers of the card builder: live-TV naming, window
 * resizability, the mixed shape chosen by aspect ratio, and the CSS class list
 * of a card.
 */
module CardBuilder {
  import opened Wrappers
  import opened StringJoin

  // ---------------------------------------------------------------------------
  // Live-TV naming
  // ---------------------------------------------------------------------------

  /** The item types that use live-TV naming. */
  const LiveTvItemTypes: set<string> := {"Program", "Timer", "Recording"}

  /** Whether `itemType` is a live-TV item: an exact, case-sensitive comparison
      against the three fixed names. */
  predicate IsUsingLiveTvNaming(itemType: string)
    ensures IsUsingLiveTvNaming(itemType) <==> itemType in LiveTvItemTypes
  {
    itemType == "Program" || itemType == "Timer" || itemType == "Recording"
  }

  /** No normalisation is done: other spellings of the names are not live TV. */
  lemma LiveTvNamingIsCaseSensitive()
    ensures !IsUsingLiveTvNaming("program") && !IsUsingLiveTvNaming("TIMER")
    ensures !IsUsingLiveTvNaming("") && !IsUsingLiveTvNaming(" Recording")
  {
  }

  // ---------------------------------------------------------------------------
  // Resizability
  // ---------------------------------------------------------------------------

  /** Minimum margin, in pixels, by which the available screen width must exceed the
      window width. */
  const ResizeMargin: int := 20

  /** Whether the window can be resized: the screen's available width (absent when
      the environment has no screen) exceeds `windowWidth` by more than 20. */
  function IsResizable(windowWidth: int, screenAvailWidth: Option<int>): (resizable: bool)
    ensures resizable <==> screenAvailWidth.Some? && screenAvailWidth.value > windowWidth + ResizeMargin
  {
    match screenAvailWidth
    case Some(screenWidth) => screenWidth - windowWidth > ResizeMargin
    case None => false
  }

  /** A margin of exactly 20 is not enough; one more pixel is. */
  lemma ResizableThreshold(windowWidth: int)
    ensures !IsResizable(windowWidth, Some(windowWidth + 20))
    ensures IsResizable(windowWidth, Some(windowWidth + 21))
    ensures !IsResizable(windowWidth, None)
  {
  }

  /** A narrower window on a wider screen stays resizable. */
  lemma ResizableMonotone(w1: int, w2: int, s1: int, s2: int)
    requires w2 <= w1 && s1 <= s2
    ensures IsResizable(w1, Some(s1)) ==> IsResizable(w2, Some(s2))
  {
  }

  // ---------------------------------------------------------------------------
  // Mixed shape by aspect ratio
  // ---------------------------------------------------------------------------

  /** At or above this aspect ratio the mixed shape is a backdrop. */
  const BackdropMinRatio: real := 133.0 / 100.0
  /** At or below this aspect ratio the mixed shape is a portrait. */
  const PortraitMaxRatio: real := 71.0 / 100.0

  /** The mixed shape for a primary image aspect ratio; an absent ratio gives a square. */
  function ResolveMixedShapeByAspectRatio(primaryImageAspectRatio: Option<real>): (shape: string)
    ensures shape == "mixedBackdrop" || shape == "mixedSquare" || shape == "mixedPortrait"
    ensures shape == "mixedBackdrop" <==>
      primaryImageAspectRatio.Some? && primaryImageAspectRatio.value >= BackdropMinRatio
    ensures shape == "mixedPortrait" <==>
      primaryImageAspectRatio.Some? && primaryImageAspectRatio.value <= PortraitMaxRatio
    ensures shape == "mixedSquare" <==>
      primaryImageAspectRatio.None? ||
      PortraitMaxRatio < primaryImageAspectRatio.value < BackdropMinRatio
  {
    match primaryImageAspectRatio
    case None => "mixedSquare"
    case Some(ratio) =>
      if ratio >= BackdropMinRatio then "mixedBackdrop"
      else if ratio > PortraitMaxRatio then "mixedSquare"
      else "mixedPortrait"
  }

  /** Portrait, square and backdrop in increasing order of width. */
  function MixedShapeRank(shape: string): nat {
    if shape == "mixedPortrait" then 0 else if shape == "mixedSquare" then 1 else 2
  }

  /** A wider image never gets a narrower shape. */
  lemma MixedShapeMonotone(r1: real, r2: real)
    requires r1 <= r2
    ensures MixedShapeRank(ResolveMixedShapeByAspectRatio(Some(r1)))
         <= MixedShapeRank(ResolveMixedShapeByAspectRatio(Some(r2)))
  {
  }

  /** The boundary values fall on the sides the thresholds put them. */
  lemma MixedShapeBoundaries()
    ensures ResolveMixedShapeByAspectRatio(Some(133.0 / 100.0)) == "mixedBackdrop"
    ensures ResolveMixedShapeByAspectRatio(Some(132.0 / 100.0)) == "mixedSquare"
    ensures ResolveMixedShapeByAspectRatio(Some(72.0 / 100.0)) == "mixedSquare"
    ensures ResolveMixedShapeByAspectRatio(Some(71.0 / 100.0)) == "mixedPortrait"
    ensures ResolveMixedShapeByAspectRatio(None) == "mixedSquare"
  {
  }

  // ---------------------------------------------------------------------------
  // Card CSS class names
  // ---------------------------------------------------------------------------

  /** The options the class list is computed from; absent optional fields are `None`. */
  datatype ClassNameOpts = ClassNameOpts(
    shape: Option<string>,
    cardCssClass: Option<string>,
    cardClass: Option<string>,
    tagName: Option<string>,
    itemType: string,
    childCount: Option<int>,
    showChildCountIndicator: bool,
    isTV: bool,
    enableFocusTransform: bool,
    isDesktop: bool)

  /** JavaScript truthiness of an optional string: present and non-empty. */
  predicate IsSetString(s: Option<string>) {
    s.Some? && s.value != ""
  }

  /** JavaScript truthiness of an optional number: present and non-zero. */
  predicate IsSetCount(n: Option<int>) {
    n.Some? && n.value != 0
  }

  /** The item types whose cards carry no user data. */
  const MusicItemTypes: seq<string> := ["MusicAlbum", "MusicArtist", "Audio"]

  /** One entry of the class list, by the rule that emits it. Custom classes and the
      shape keep their text, so two entries can render to the same class name. */
  datatype ClassToken =
    | Card
    | ShapeCard(shape: string)
    | CardCss(name: string)
    | CardClass(name: string)
    | Hoverable
    | ShowFocus
    | ShowAnimation
    | GroupedCard
    | WithUserData
    | ItemAction

  /** The class name a token renders to. */
  function Text(t: ClassToken): string {
    match t
    case Card => "card"
    case ShapeCard(shape) => shape + "Card"
    case CardCss(name) => name
    case CardClass(name) => name
    case Hoverable => "card-hoverable"
    case ShowFocus => "show-focus"
    case ShowAnimation => "show-animation"
    case GroupedCard => "groupedCard"
    case WithUserData => "card-withuserdata"
    case ItemAction => "itemAction"
  }

  /** The rendered class names of a token list, in order. */
  function Texts(tokens: seq<ClassToken>): (names: seq<string>)
    ensures |names| == |tokens|
  {
    seq(|tokens|, i requires 0 <= i < |tokens| => Text(tokens[i]))
  }

  /** Each class name renders the token at the same position. */
  lemma TextsAt(tokens: seq<ClassToken>, i: nat)
    requires i < |tokens|
    ensures Texts(tokens)[i] == Text(tokens[i])
  {
  }

  /** The position of a token's rule in the fixed emission order. */
  function Rank(t: ClassToken): (r: nat)
    ensures r < RuleCount
  {
    match t
    case Card => 0
    case ShapeCard(_) => 1
    case CardCss(_) => 2
    case CardClass(_) => 3
    case Hoverable => 4
    case ShowFocus => 5
    case ShowAnimation => 6
    case GroupedCard => 7
    case WithUserData => 8
    case ItemAction => 9
  }

  /** The number of class-name rules. */
  const RuleCount: nat := 10

  /** The condition under which each token is emitted for `opts`. */
  predicate Emitted(opts: ClassNameOpts, t: ClassToken) {
    match t
    case Card => true
    case ShapeCard(shape) => IsSetString(opts.shape) && opts.shape.value == shape
    case CardCss(name) => IsSetString(opts.cardCssClass) && opts.cardCssClass.value == name
    case CardClass(name) => IsSetString(opts.cardClass) && opts.cardClass.value == name
    case Hoverable => opts.isDesktop
    case ShowFocus => opts.isTV
    case ShowAnimation => opts.isTV && opts.enableFocusTransform
    case GroupedCard => opts.showChildCountIndicator && IsSetCount(opts.childCount)
    case WithUserData => opts.itemType !in MusicItemTypes
    case ItemAction => opts.tagName == Some("button")
  }

  /** Tokens appear in strictly increasing emission order (so none appears twice). */
  predicate InEmissionOrder(tokens: seq<ClassToken>) {
    forall i, j :: 0 <= i < j < |tokens| ==> Rank(tokens[i]) < Rank(tokens[j])
  }

  /** `tokens` is a valid class list for `opts`: exactly the emitted tokens, in order. */
  ghost predicate IsClassList(opts: ClassNameOpts, tokens: seq<ClassToken>) {
    InEmissionOrder(tokens) && forall t :: t in tokens <==> Emitted(opts, t)
  }

  /** The token rule k would emit, carrying the option value it would show. */
  function Candidate(opts: ClassNameOpts, k: nat): ClassToken
    requires k < RuleCount
  {
    if k == 0 then Card
    else if k == 1 then ShapeCard(opts.shape.GetOr(""))
    else if k == 2 then CardCss(opts.cardCssClass.GetOr(""))
    else if k == 3 then CardClass(opts.cardClass.GetOr(""))
    else if k == 4 then Hoverable
    else if k == 5 then ShowFocus
    else if k == 6 then ShowAnimation
    else if k == 7 then GroupedCard
    else if k == 8 then WithUserData
    else ItemAction
  }

  /** Rule k's candidate has rank k, and an emitted token is the candidate of its rank. */
  lemma CandidateOfRank(opts: ClassNameOpts, t: ClassToken)
    ensures forall k :: 0 <= k < RuleCount ==> Rank(Candidate(opts, k)) == k
    ensures Emitted(opts, t) ==> Candidate(opts, Rank(t)) == t
  {
  }

  /** What rule k contributes: its candidate when the candidate's condition holds. */
  function RuleTokens(opts: ClassNameOpts, k: nat): seq<ClassToken>
    requires k < RuleCount
  {
    var candidate := Candidate(opts, k);
    if Emitted(opts, candidate) then [candidate] else []
  }

  /** What the first k rules contribute, in rule order. */
  function Prefix(opts: ClassNameOpts, k: nat): seq<ClassToken>
    requires k <= RuleCount
  {
    if k == 0 then [] else Prefix(opts, k - 1) + RuleTokens(opts, k - 1)
  }

  /** The first k rules emit exactly the emitted tokens of rank below k, in order. */
  lemma {:induction false} PrefixIsClassListUpTo(opts: ClassNameOpts, k: nat)
    requires k <= RuleCount
    ensures forall t :: t in Prefix(opts, k) <==> Emitted(opts, t) && Rank(t) < k
    ensures InEmissionOrder(Prefix(opts, k))
  {
    if k > 0 {
      PrefixIsClassListUpTo(opts, k - 1);
      CandidateOfRank(opts, Candidate(opts, k - 1));
      forall t ensures t in Prefix(opts, k) <==> Emitted(opts, t) && Rank(t) < k {
        CandidateOfRank(opts, t);
      }
    }
  }

  /** Rendering a concatenation renders each part. */
  lemma TextsConcat(a: seq<ClassToken>, b: seq<ClassToken>)
    ensures Texts(a + b) == Texts(a) + Texts(b)
  {
  }

  // RuleNames and RenderedPrefix repeat the fold of RuleTokens and Prefix over class-name
  // strings; they exist only to keep the proof of ResolveCardCssClassNames cheap.

  /** The class names rule k appends: its candidate's name when the candidate is emitted. */
  function RuleNames(opts: ClassNameOpts, k: nat): seq<string>
    requires k < RuleCount
  {
    var candidate := Candidate(opts, k);
    if Emitted(opts, candidate) then [Text(candidate)] else []
  }

  /** The class names the first k rules append, in rule order. */
  function RenderedPrefix(opts: ClassNameOpts, k: nat): seq<string>
    requires k <= RuleCount
  {
    if k == 0 then [] else RenderedPrefix(opts, k - 1) + RuleNames(opts, k - 1)
  }

  /** Appending rule by rule renders the class list of the first k rules. */
  lemma {:induction false} RenderedPrefixIsTexts(opts: ClassNameOpts, k: nat)
    requires k <= RuleCount
    ensures RenderedPrefix(opts, k) == Texts(Prefix(opts, k))
  {
    if k > 0 {
      RenderedPrefixIsTexts(opts, k - 1);
      TextsConcat(Prefix(opts, k - 1), RuleTokens(opts, k - 1));
      assert Texts([Candidate(opts, k - 1)]) == [Text(Candidate(opts, k - 1))];
    }
  }

  /** The class list of a card: what all ten rules contribute, in order. */
  function ClassTokens(opts: ClassNameOpts): seq<ClassToken> {
    Prefix(opts, RuleCount)
  }

  /** The class list holds exactly the tokens whose conditions hold, in emission order. */
  lemma ClassTokensCharacterized(opts: ClassNameOpts)
    ensures IsClassList(opts, ClassTokens(opts))
  {
    PrefixIsClassListUpTo(opts, RuleCount);
  }

  /** The class attribute of a card: its class names joined with single spaces. */
  function ClassNames(opts: ClassNameOpts): string {
    Join(Texts(ClassTokens(opts)), " ")
  }

  /** Two lists in emission order with the same members are the same list, so the
      conditions and the order determine the class list completely. */
  lemma {:induction false} ClassListUnique(a: seq<ClassToken>, b: seq<ClassToken>)
    requires InEmissionOrder(a) && InEmissionOrder(b)
    requires forall t :: t in a <==> t in b
    ensures a == b
  {
    if a != [] {
      assert a[0] in a;
    }
    if b != [] {
      assert b[0] in b;
    }
    if a != [] && b != [] {
      assert a[0] == b[0];
      assert a == [a[0]] + a[1..] && b == [b[0]] + b[1..];
      forall t ensures t in a[1..] <==> t in b[1..] {
        if t in a[1..] {
          var i :| 0 <= i < |a| - 1 && a[1..][i] == t;
          assert a[i + 1] == t && t in a;
          assert Rank(a[0]) < Rank(t);
          assert t in b && t != b[0];
        }
        if t in b[1..] {
          var i :| 0 <= i < |b| - 1 && b[1..][i] == t;
          assert b[i + 1] == t && t in b;
          assert Rank(b[0]) < Rank(t);
          assert t in a && t != a[0];
        }
      }
      ClassListUnique(a[1..], b[1..]);
    }
  }

  /** Ranks of a list in emission order grow at least as fast as positions. */
  lemma {:induction false} RankAtLeastPosition(tokens: seq<ClassToken>, i: nat)
    requires InEmissionOrder(tokens) && i < |tokens|
    ensures Rank(tokens[i]) >= i
  {
    if i > 0 {
      RankAtLeastPosition(tokens, i - 1);
    }
  }

  /** A class list starts with "card" and has between one and ten entries. */
  lemma ClassListBounds(opts: ClassNameOpts)
    ensures 1 <= |ClassTokens(opts)| <= RuleCount && ClassTokens(opts)[0] == Card
  {
    var tokens := ClassTokens(opts);
    ClassTokensCharacterized(opts);
    assert Emitted(opts, Card);
    if |tokens| > RuleCount {
      RankAtLeastPosition(tokens, RuleCount);
    }
    var k :| 0 <= k < |tokens| && tokens[k] == Card;
  }

  /** The class attribute always begins with the class name "card". */
  lemma ClassNamesStartWithCard(opts: ClassNameOpts)
    ensures "card" <= ClassNames(opts)
  {
    ClassListBounds(opts);
    TextsAt(ClassTokens(opts), 0);
  }

  /** "show-focus" is emitted exactly on TV, and "show-animation" only with it and
      right after it. */
  lemma ShowAnimationNestedInShowFocus(opts: ClassNameOpts)
    ensures ShowFocus in ClassTokens(opts) <==> opts.isTV
    ensures ShowAnimation in ClassTokens(opts) <==> opts.isTV && opts.enableFocusTransform
    ensures forall j :: 0 <= j < |ClassTokens(opts)| && ClassTokens(opts)[j] == ShowAnimation ==>
      0 < j && ClassTokens(opts)[j - 1] == ShowFocus
  {
    var tokens := ClassTokens(opts);
    ClassTokensCharacterized(opts);
    assert Emitted(opts, ShowFocus) == (ShowFocus in tokens);
    assert Emitted(opts, ShowAnimation) == (ShowAnimation in tokens);
    forall j | 0 <= j < |tokens| && tokens[j] == ShowAnimation
      ensures 0 < j && tokens[j - 1] == ShowFocus
    {
      var i :| 0 <= i < |tokens| && tokens[i] == ShowFocus;
    }
  }

  /** "groupedCard" needs the indicator on and a present, non-zero child count. */
  lemma GroupedCardCondition(opts: ClassNameOpts)
    ensures GroupedCard in ClassTokens(opts) <==>
      opts.showChildCountIndicator && opts.childCount.Some? && opts.childCount.value != 0
  {
    ClassTokensCharacterized(opts);
    assert Emitted(opts, GroupedCard) == (GroupedCard in ClassTokens(opts));
  }

  /** Music items never get "card-withuserdata"; every other item type does. */
  lemma WithUserDataUnlessMusic(opts: ClassNameOpts)
    ensures WithUserData in ClassTokens(opts) <==>
      opts.itemType != "MusicAlbum" && opts.itemType != "MusicArtist" && opts.itemType != "Audio"
  {
    ClassTokensCharacterized(opts);
    assert Emitted(opts, WithUserData) == (WithUserData in ClassTokens(opts));
  }

  /** A button card gets "itemAction", and then as its last class. */
  lemma ItemActionLast(opts: ClassNameOpts)
    ensures ItemAction in ClassTokens(opts) <==> opts.tagName == Some("button")
    ensures opts.tagName == Some("button") ==>
      ClassTokens(opts)[|ClassTokens(opts)| - 1] == ItemAction
  {
    var tokens := ClassTokens(opts);
    ClassTokensCharacterized(opts);
    assert Emitted(opts, ItemAction) == (ItemAction in tokens);
    if opts.tagName == Some("button") {
      var k :| 0 <= k < |tokens| && tokens[k] == ItemAction;
    }
  }

  /** The shape and the two custom classes are emitted only when set and non-empty. */
  lemma OptionalClassesOnlyWhenSet(opts: ClassNameOpts, name: string)
    ensures ShapeCard(name) in ClassTokens(opts) <==> opts.shape == Some(name) && name != ""
    ensures CardCss(name) in ClassTokens(opts) <==> opts.cardCssClass == Some(name) && name != ""
    ensures CardClass(name) in ClassTokens(opts) <==> opts.cardClass == Some(name) && name != ""
  {
    ClassTokensCharacterized(opts);
    assert Emitted(opts, ShapeCard(name)) == (ShapeCard(name) in ClassTokens(opts));
    assert Emitted(opts, CardCss(name)) == (CardCss(name) in ClassTokens(opts));
    assert Emitted(opts, CardClass(name)) == (CardClass(name) in ClassTokens(opts));
  }

  /** No rule after the first fires. */
  predicate NothingSet(opts: ClassNameOpts) {
    !IsSetString(opts.shape) && !IsSetString(opts.cardCssClass) && !IsSetString(opts.cardClass) &&
    !opts.isDesktop && !opts.isTV && !(opts.showChildCountIndicator && IsSetCount(opts.childCount)) &&
    opts.itemType in MusicItemTypes && opts.tagName != Some("button")
  }

  /** The class list is just "card" exactly when no rule after the first fires. */
  lemma OnlyCardWhenNothingSet(opts: ClassNameOpts)
    ensures ClassTokens(opts) == [Card] <==> NothingSet(opts)
  {
    var tokens := ClassTokens(opts);
    ClassTokensCharacterized(opts);
    if NothingSet(opts) {
      forall t ensures t in [Card] <==> t in tokens {
        assert Emitted(opts, t) <==> t == Card;
      }
      ClassListUnique([Card], tokens);
    }
    if tokens == [Card] {
      assert !Emitted(opts, ShapeCard(opts.shape.GetOr("")));
      assert !Emitted(opts, CardCss(opts.cardCssClass.GetOr("")));
      assert !Emitted(opts, CardClass(opts.cardClass.GetOr("")));
      assert !Emitted(opts, Hoverable) && !Emitted(opts, ShowFocus) && !Emitted(opts, GroupedCard);
      assert !Emitted(opts, WithUserData) && !Emitted(opts, ItemAction);
    }
  }

  /** A music item with no optional field and every flag off renders as just "card". */
  lemma MusicItemOnlyCard(itemType: string, enableFocusTransform: bool, childCount: Option<int>)
    requires itemType in MusicItemTypes
    ensures ClassNames(ClassNameOpts(None, None, None, None, itemType, childCount,
                                     false, false, enableFocusTransform, false)) == "card"
  {
    var opts := ClassNameOpts(None, None, None, None, itemType, childCount,
                              false, false, enableFocusTransform, false);
    OnlyCardWhenNothingSet(opts);
    assert Texts([Card]) == ["card"];
  }

  /** Every rule's condition holds. */
  predicate EverythingSet(opts: ClassNameOpts) {
    IsSetString(opts.shape) && IsSetString(opts.cardCssClass) && IsSetString(opts.cardClass) &&
    opts.isDesktop && opts.isTV && opts.enableFocusTransform &&
    opts.showChildCountIndicator && IsSetCount(opts.childCount) &&
    opts.itemType !in MusicItemTypes && opts.tagName == Some("button")
  }

  /** With every option set, all ten rules fire, in rule order, each once. */
  lemma EverythingSetAllClasses(opts: ClassNameOpts)
    requires EverythingSet(opts)
    ensures ClassNames(opts) == Join(["card", opts.shape.value + "Card", opts.cardCssClass.value,
      opts.cardClass.value, "card-hoverable", "show-focus", "show-animation", "groupedCard",
      "card-withuserdata", "itemAction"], " ")
  {
    var names := ["card", opts.shape.value + "Card", opts.cardCssClass.value, opts.cardClass.value,
      "card-hoverable", "show-focus", "show-animation", "groupedCard", "card-withuserdata", "itemAction"];
    // Each rule appends the next name.
    assert RenderedPrefix(opts, 1) == names[..1];
    assert RenderedPrefix(opts, 2) == names[..2];
    assert RenderedPrefix(opts, 3) == names[..3];
    assert RenderedPrefix(opts, 4) == names[..4];
    assert RenderedPrefix(opts, 5) == names[..5];
    assert RenderedPrefix(opts, 6) == names[..6];
    assert RenderedPrefix(opts, 7) == names[..7];
    assert RenderedPrefix(opts, 8) == names[..8];
    assert RenderedPrefix(opts, 9) == names[..9];
    assert RenderedPrefix(opts, 10) == names[..10] == names;
    RenderedPrefixIsTexts(opts, RuleCount);
  }

  /** The fully-set card of the card builder's `all` test: a portrait button card on a desktop TV
      whose custom class repeats "card". */
  lemma AllOptionsSet()
    ensures ClassNames(ClassNameOpts(Some("portrait"), Some("card-css"), Some("card"), Some("button"),
                                     "non-music", Some(5), true, true, true, true))
         == Join(["card", "portraitCard", "card-css", "card", "card-hoverable", "show-focus",
                  "show-animation", "groupedCard", "card-withuserdata", "itemAction"], " ")
  {
    assert "portrait" + "Card" == "portraitCard";
    EverythingSetAllClasses(ClassNameOpts(Some("portrait"), Some("card-css"), Some("card"), Some("button"),
                                          "non-music", Some(5), true, true, true, true));
  }

  /** A non-music item with no optional field and every flag off gets the class names
      "card" and "card-withuserdata". */
  lemma DefaultCardClassList(itemType: string, childCount: Option<int>)
    requires itemType !in MusicItemTypes
    ensures ClassNames(ClassNameOpts(None, None, None, None, itemType, childCount,
                                     false, false, false, false))
         == Join(["card", "card-withuserdata"], " ")
  {
    var opts := ClassNameOpts(None, None, None, None, itemType, childCount, false, false, false, false);
    assert RenderedPrefix(opts, 1) == ["card"];
    assert RenderedPrefix(opts, 2) == ["card"];
    assert RenderedPrefix(opts, 3) == ["card"];
    assert RenderedPrefix(opts, 4) == ["card"];
    assert RenderedPrefix(opts, 5) == ["card"];
    assert RenderedPrefix(opts, 6) == ["card"];
    assert RenderedPrefix(opts, 7) == ["card"];
    assert RenderedPrefix(opts, 8) == ["card"];
    assert RenderedPrefix(opts, 9) == ["card", "card-withuserdata"];
    assert RenderedPrefix(opts, 10) == ["card", "card-withuserdata"];
    RenderedPrefixIsTexts(opts, RuleCount);
  }

  /** A non-music item with no optional field and every flag off renders as
      "card card-withuserdata". */
  lemma DefaultCard(itemType: string, childCount: Option<int>)
    requires itemType !in MusicItemTypes
    ensures ClassNames(ClassNameOpts(None, None, None, None, itemType, childCount,
                                     false, false, false, false))
         == "card card-withuserdata"
  {
    DefaultCardClassList(itemType, childCount);
    assert Join(["card", "card-withuserdata"], " ") == "card card-withuserdata";
  }

  /** When no class name contains a space, splitting the class attribute on spaces
      recovers the class names. */
  lemma ClassNamesSplitBack(opts: ClassNameOpts)
    requires forall t :: t in ClassTokens(opts) ==> ' ' !in Text(t)
    ensures Split(ClassNames(opts), ' ') == Texts(ClassTokens(opts))
  {
    ClassListBounds(opts);
    var tokens := ClassTokens(opts);
    forall i | 0 <= i < |tokens| ensures ' ' !in Texts(tokens)[i] {
      TextsAt(tokens, i);
      assert tokens[i] in tokens;
    }
    SplitJoin(Texts(tokens), ' ');
  }

  /** Builds the class attribute of a card by appending each rule's class name in turn,
      then joining them with spaces. */
  method ResolveCardCssClassNames(opts: ClassNameOpts) returns (classAttribute: string)
    ensures classAttribute == ClassNames(opts)
  {
    // After each rule, classNames holds what the rules so far append.
    var classNames := ["card"];
    assert classNames == RenderedPrefix(opts, 1);

    if IsSetString(opts.shape) {
      classNames := classNames + [opts.shape.value + "Card"];
    }
    assert classNames == RenderedPrefix(opts, 2);

    if IsSetString(opts.cardCssClass) {
      classNames := classNames + [opts.cardCssClass.value];
    }
    assert classNames == RenderedPrefix(opts, 3);

    if IsSetString(opts.cardClass) {
      classNames := classNames + [opts.cardClass.value];
    }
    assert classNames == RenderedPrefix(opts, 4);

    if opts.isDesktop {
      classNames := classNames + ["card-hoverable"];
    }
    assert classNames == RenderedPrefix(opts, 5);

    if opts.isTV {
      classNames := classNames + ["show-focus"];
      assert classNames == RenderedPrefix(opts, 6);
      if opts.enableFocusTransform {
        classNames := classNames + ["show-animation"];
      }
    } else {
      assert classNames == RenderedPrefix(opts, 6);
    }
    assert classNames == RenderedPrefix(opts, 7);

    if opts.showChildCountIndicator && IsSetCount(opts.childCount) {
      classNames := classNames + ["groupedCard"];
    }
    assert classNames == RenderedPrefix(opts, 8);

    if opts.itemType !in MusicItemTypes {
      classNames := classNames + ["card-withuserdata"];
    }
    assert classNames == RenderedPrefix(opts, 9);

    if opts.tagName == Some("button") {
      classNames := classNames + ["itemAction"];
    }
    assert classNames == RenderedPrefix(opts, 10);

    RenderedPrefixIsTexts(opts, RuleCount);
    classAttribute := Join(classNames, " ");
  }
}
