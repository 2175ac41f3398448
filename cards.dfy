/** The card catalog (ten fixed templates), the factory that turns a
    template into a runtime card, and the deck builder. */
module Cards {
  import opened Types

  /** A catalog entry: a card without its id and dynamic fields. */
  datatype Template = Template(
    templateId: string,
    name: string,
    cost: int,
    runs: int,
    pressure: int,
    composure: int,
    kind: CardKind,
    description: string)

  const BaseSet: seq<Template> := [
    Template("opener", "The Opener", 1, 2, 0, 5, Unit,
      "On Reveal: +1 Runs if played in Lane 1 or 2."),
    Template("finisher", "The Finisher", 5, 10, 0, 2, Unit,
      "On Reveal: Double Runs if played last this turn."),
    Template("pinch_hitter", "The Pinch Hitter", 2, 5, 0, 1, Unit,
      "High runs for low cost, but very fragile."),
    Template("speedster", "The Speedster", 3, 0, 6, 3, Unit,
      "+2 Pressure on Green Top."),
    Template("mystery_spinner", "Mystery Spinner", 2, 0, 2, 3, Unit,
      "On Reveal: -3 Runs to opposing card."),
    Template("swing_king", "The Swing King", 3, 0, 4, 3, Unit,
      "Attacks the card in the Left lane."),
    Template("captain", "The Captain", 4, 4, 3, 4, Unit,
      "Ongoing: +1 Composure to all other cards here."),
    Template("electric_fielder", "Electric Fielder", 2, 1, 1, 4, Unit,
      "Reaction: Cancels opponent Tactics here."),
    Template("yorker", "Yorker", 4, 0, 0, 0, Tactic,
      "Destroy an opponent card with > 6 Runs."),
    Template("helicopter", "Helicopter Shot", 2, 0, 0, 0, Tactic,
      "Give one of your cards +4 Runs.")
  ]

  /** The fixed multiset of template ids every deck is built from, in the
      order the source lists it before shuffling. */
  const AllCardIds: seq<string> := [
    "opener", "opener",
    "speedster", "speedster",
    "finisher",
    "captain",
    "pinch_hitter", "pinch_hitter",
    "yorker",
    "mystery_spinner",
    "swing_king",
    "electric_fielder"
  ]

  const Opener: string := "opener"

  predicate NonNegativeStats(t: Template)
  {
    t.cost >= 0 && t.runs >= 0 && t.pressure >= 0 && t.composure >= 0
  }

  lemma BaseSetWellFormed()
    ensures |BaseSet| == 10
    ensures forall i, j :: 0 <= i < j < |BaseSet| ==> BaseSet[i].templateId != BaseSet[j].templateId
    ensures forall i :: 0 <= i < |BaseSet| ==> NonNegativeStats(BaseSet[i])
  {
  }

  /** `Array.prototype.find` over the templates: the first entry with the
      given template id. */
  function FindTemplate(templates: seq<Template>, templateId: string): (r: Option<Template>)
    ensures r.None? <==> forall i :: 0 <= i < |templates| ==> templates[i].templateId != templateId
    ensures r.Some? ==> exists i :: && 0 <= i < |templates|
                                    && templates[i] == r.value
                                    && r.value.templateId == templateId
                                    && forall j :: 0 <= j < i ==> templates[j].templateId != templateId
  {
    if templates == [] then None
    else if templates[0].templateId == templateId then Some(templates[0])
    else
      var r := FindTemplate(templates[1..], templateId);
      if r.Some? then
        var i :| && 0 <= i < |templates[1..]|
                 && templates[1..][i] == r.value
                 && r.value.templateId == templateId
                 && forall j :: 0 <= j < i ==> templates[1..][j].templateId != templateId;
        assert templates[i + 1] == r.value;
        assert forall j :: 0 <= j < i + 1 ==> templates[j].templateId != templateId by {
          forall j | 0 <= j < i + 1 ensures templates[j].templateId != templateId {
            if j > 0 { assert templates[j] == templates[1..][j - 1]; }
          }
        }
        r
      else
        assert forall i :: 0 <= i < |templates| ==> templates[i].templateId != templateId by {
          forall i | 0 <= i < |templates| ensures templates[i].templateId != templateId {
            if i > 0 { assert templates[i] == templates[1..][i - 1]; }
          }
        }
        r
  }

  /** The runtime card built from template `t` under id `id`: every template
      field copied, each current stat equal to its base stat, not revealed. */
  function Instantiate(t: Template, id: string): Card
  {
    Card(id, t.templateId, t.name, t.cost, t.runs, t.pressure, t.composure, t.kind,
         t.description, Some(t.runs), Some(t.pressure), Some(t.composure), Some(false))
  }

  predicate IsFreshInstance(c: Card)
  {
    && c.currentRuns == Some(c.runs)
    && c.currentPressure == Some(c.pressure)
    && c.currentComposure == Some(c.composure)
    && c.isRevealed == Some(false)
  }

  /** `createCard` over a given catalog: look the template up; an unknown id
      is an error. The source draws the id from a UUID generator; here it is
      the argument `freshId`. */
  function CreateFrom(catalog: seq<Template>, templateId: string, freshId: string): Result<Card, string>
  {
    match FindTemplate(catalog, templateId)
    case None => Err("Card template " + templateId + " not found")
    case Some(t) => Ok(Instantiate(t, freshId))
  }

  /** Creating a card fails exactly when no catalog template has the id, with
      the message "Card template <id> not found"; otherwise the card carries
      the fresh id and the requested template id, is a fresh instance, and is
      the instance of the first template with that id. */
  lemma CreateFromSpec(catalog: seq<Template>, templateId: string, freshId: string)
    ensures var r := CreateFrom(catalog, templateId, freshId);
            && (r.Err? <==> forall i :: 0 <= i < |catalog| ==> catalog[i].templateId != templateId)
            && (r.Err? ==> r.error == "Card template " + templateId + " not found")
            && (r.Ok? ==> && r.value.id == freshId
                          && r.value.templateId == templateId
                          && IsFreshInstance(r.value)
                          && exists i :: && 0 <= i < |catalog|
                                         && r.value == Instantiate(catalog[i], freshId)
                                         && forall j :: 0 <= j < i ==> catalog[j].templateId != templateId)
  {
  }

  /** `createCard` itself, over the base set. */
  function CreateCard(templateId: string, freshId: string): Result<Card, string>
  {
    CreateFrom(BaseSet, templateId, freshId)
  }

  /** Every template of `catalog` has non-negative cost and stats. */
  predicate CatalogNonNegative(catalog: seq<Template>)
  {
    forall i :: 0 <= i < |catalog| ==> NonNegativeStats(catalog[i])
  }

  /** Over a catalogue of non-negative templates, every card `createCard`
      can return has non-negative cost and stats. */
  lemma CreatedCardStats(catalog: seq<Template>, templateId: string, freshId: string)
    requires CatalogNonNegative(catalog) && CreateFrom(catalog, templateId, freshId).Ok?
    ensures var c := CreateFrom(catalog, templateId, freshId).value;
            c.cost >= 0 && c.runs >= 0 && c.pressure >= 0 && c.composure >= 0
  {
    CreateFromSpec(catalog, templateId, freshId);
  }

  /** For each position of `AllCardIds`, the catalog index of its template. */
  const CatalogIndex: seq<nat> := [0, 0, 3, 3, 1, 6, 2, 2, 8, 4, 5, 7]

  lemma CatalogIndexCorrect(i: nat)
    requires i < |AllCardIds|
    ensures CatalogIndex[i] < |BaseSet| && BaseSet[CatalogIndex[i]].templateId == AllCardIds[i]
  {
  }

  /** Every id of the deck multiset names a catalog template. */
  lemma AllCardIdsInCatalog(x: string, freshId: string)
    requires x in AllCardIds
    ensures CreateCard(x, freshId).Ok?
  {
    var i :| 0 <= i < |AllCardIds| && AllCardIds[i] == x;
    CatalogIndexCorrect(i);
    CreateFromSpec(BaseSet, x, freshId);
  }

  /** `shuffledIds.map(id => createCard(id))` over a catalog, with one
      fresh id per card: the first unknown template id aborts the whole map. */
  function CreateAll(catalog: seq<Template>, templateIds: seq<string>, freshIds: seq<string>): (r: Result<seq<Card>, string>)
    requires |freshIds| == |templateIds|
    ensures r.Ok? ==> |r.value| == |templateIds|
  {
    if templateIds == [] then Ok([])
    else
      match CreateFrom(catalog, templateIds[0], freshIds[0])
      case Err(e) => Err(e)
      case Ok(c) =>
        match CreateAll(catalog, templateIds[1..], freshIds[1..])
        case Err(e) => Err(e)
        case Ok(cs) => Ok([c] + cs)
  }

  /** The map succeeds exactly when every id names a template. */
  lemma {:induction false} CreateAllOk(catalog: seq<Template>, templateIds: seq<string>, freshIds: seq<string>)
    requires |freshIds| == |templateIds|
    ensures CreateAll(catalog, templateIds, freshIds).Ok? <==>
            forall i :: 0 <= i < |templateIds| ==> CreateFrom(catalog, templateIds[i], freshIds[i]).Ok?
  {
    if templateIds != [] {
      CreateAllOk(catalog, templateIds[1..], freshIds[1..]);
      assert forall i :: 1 <= i < |templateIds| ==>
        templateIds[1..][i - 1] == templateIds[i] && freshIds[1..][i - 1] == freshIds[i];
    }
  }

  /** On success, card `i` is the card created from id `i`. */
  lemma {:induction false} CreateAllItems(catalog: seq<Template>, templateIds: seq<string>, freshIds: seq<string>)
    requires |freshIds| == |templateIds| && CreateAll(catalog, templateIds, freshIds).Ok?
    ensures forall i :: 0 <= i < |templateIds| ==>
              CreateFrom(catalog, templateIds[i], freshIds[i]) == Ok(CreateAll(catalog, templateIds, freshIds).value[i])
  {
    if templateIds != [] {
      CreateAllItems(catalog, templateIds[1..], freshIds[1..]);
      var cs := CreateAll(catalog, templateIds[1..], freshIds[1..]).value;
      assert CreateAll(catalog, templateIds, freshIds).value == [CreateFrom(catalog, templateIds[0], freshIds[0]).value] + cs;
      assert forall i :: 1 <= i < |templateIds| ==>
        templateIds[1..][i - 1] == templateIds[i] && freshIds[1..][i - 1] == freshIds[i];
    }
  }

  /** On failure, the error is that of the first id without a template. */
  lemma {:induction false} CreateAllFirstError(catalog: seq<Template>, templateIds: seq<string>, freshIds: seq<string>)
    requires |freshIds| == |templateIds| && CreateAll(catalog, templateIds, freshIds).Err?
    ensures exists k :: && 0 <= k < |templateIds|
                        && CreateFrom(catalog, templateIds[k], freshIds[k]).Err?
                        && CreateAll(catalog, templateIds, freshIds).error == CreateFrom(catalog, templateIds[k], freshIds[k]).error
                        && forall i :: 0 <= i < k ==> CreateFrom(catalog, templateIds[i], freshIds[i]).Ok?
  {
    if CreateFrom(catalog, templateIds[0], freshIds[0]).Ok? {
      var ids, restFresh := templateIds[1..], freshIds[1..];
      CreateAllFirstError(catalog, ids, restFresh);
      var k :| && 0 <= k < |ids|
               && CreateFrom(catalog, ids[k], restFresh[k]).Err?
               && CreateAll(catalog, ids, restFresh).error == CreateFrom(catalog, ids[k], restFresh[k]).error
               && forall i :: 0 <= i < k ==> CreateFrom(catalog, ids[i], restFresh[i]).Ok?;
      assert templateIds[k + 1] == ids[k] && freshIds[k + 1] == restFresh[k];
      assert forall i :: 1 <= i < k + 1 ==> ids[i - 1] == templateIds[i] && restFresh[i - 1] == freshIds[i];
    }
  }

  /** The sequence's first index holding `x`, or -1 (`Array.prototype.indexOf`). */
  function IndexOf(s: seq<string>, x: string): (r: int)
    ensures -1 <= r < |s|
    ensures r == -1 <==> x !in s
    ensures r >= 0 ==> s[r] == x && x !in s[..r]
  {
    if s == [] then -1
    else if s[0] == x then 0
    else
      var k := IndexOf(s[1..], x);
      if k == -1 then -1
      else
        assert s[..k + 1] == [s[0]] + s[1..][..k];
        k + 1
  }

  /** The fix-up after the shuffle: if the first opener lies beyond index 4,
      swap it with index 0. */
  function FixOpener(s: seq<string>): (r: seq<string>)
    ensures |r| == |s|
  {
    var k := IndexOf(s, Opener);
    if k > 4 then s[0 := s[k]][k := s[0]] else s
  }

  /** The fix-up rearranges the ids: it is a permutation, at most indices 0
      and the first opener's index change, and if an opener was present the
      first opener now sits at index 4 or before. */
  lemma FixOpenerProperties(s: seq<string>)
    ensures var r := FixOpener(s);
            && |r| == |s|
            && multiset(r) == multiset(s)
            && (Opener in s ==> 0 <= IndexOf(r, Opener) <= 4)
            && (IndexOf(s, Opener) <= 4 ==> r == s)
            && (IndexOf(s, Opener) > 4 ==>
                  var k := IndexOf(s, Opener);
                  r[0] == Opener && r[k] == s[0] &&
                  forall i :: 0 <= i < |s| && i != 0 && i != k ==> r[i] == s[i])
  {
    var k := IndexOf(s, Opener);
    if k > 4 {
      var r := s[0 := s[k]][k := s[0]];
      assert r == FixOpener(s);
      assert multiset(s[0 := s[k]]) == multiset(s) - multiset{s[0]} + multiset{s[k]};
      assert r[0] == Opener;
      assert IndexOf(r, Opener) == 0;
    }
  }

  /** The shuffle of the source: any rearrangement of `AllCardIds`. */
  predicate IsShuffle(shuffled: seq<string>)
  {
    multiset(shuffled) == multiset(AllCardIds)
  }

  lemma ShuffleLength(shuffled: seq<string>)
    requires IsShuffle(shuffled)
    ensures |shuffled| == 12
  {
    calc {
      |shuffled|;
      |multiset(shuffled)|;
      |multiset(AllCardIds)|;
      |AllCardIds|;
    }
  }

  /** Every id that a deck may hold names a template of `catalog`. */
  ghost predicate CoversDeckIds(catalog: seq<Template>)
  {
    forall x, freshId :: x in AllCardIds ==> CreateFrom(catalog, x, freshId).Ok?
  }

  lemma BaseSetCoversDeckIds()
    ensures CoversDeckIds(BaseSet)
  {
    forall x, freshId | x in AllCardIds ensures CreateFrom(BaseSet, x, freshId).Ok? {
      AllCardIdsInCatalog(x, freshId);
    }
  }

  /** Over a catalogue that covers the deck ids, building the cards of any
      sequence of deck ids succeeds. */
  lemma ShuffleInstantiable(catalog: seq<Template>, ids: seq<string>, freshIds: seq<string>)
    requires CoversDeckIds(catalog)
    requires forall x :: x in ids ==> x in AllCardIds
    requires |freshIds| == |ids|
    ensures CreateAll(catalog, ids, freshIds).Ok?
  {
    CreateAllOk(catalog, ids, freshIds);
  }

  /** Every element of a rearrangement of `AllCardIds` is one of its ids. */
  lemma RearrangedIdsKnown(ids: seq<string>)
    requires multiset(ids) == multiset(AllCardIds)
    ensures forall x :: x in ids ==> x in AllCardIds
  {
    forall x | x in ids ensures x in AllCardIds {
      assert x in multiset(ids);
    }
  }

  /** The deck that `createDeck` returns for shuffle `shuffled` and fresh
      ids `freshIds`. */
  function BuiltDeck(shuffled: seq<string>, freshIds: seq<string>): (deck: seq<Card>)
    requires IsShuffle(shuffled) && |freshIds| == 12
    ensures |deck| == 12
  {
    FixedIdsInstantiable(shuffled, freshIds);
    CreateAll(BaseSet, FixOpener(shuffled), freshIds).value
  }

  /** A built deck is the successful map of the fixed-up shuffle to cards. */
  lemma BuiltDeckUnfold(shuffled: seq<string>, freshIds: seq<string>)
    requires IsShuffle(shuffled) && |freshIds| == 12
    ensures |FixOpener(shuffled)| == 12
    ensures CreateAll(BaseSet, FixOpener(shuffled), freshIds).Ok?
    ensures CreateAll(BaseSet, FixOpener(shuffled), freshIds).value == BuiltDeck(shuffled, freshIds)
  {
    FixedIdsInstantiable(shuffled, freshIds);
  }

  /** The fixed-up shuffle has twelve ids, all known to the catalog. */
  lemma FixedIdsInstantiable(shuffled: seq<string>, freshIds: seq<string>)
    requires IsShuffle(shuffled) && |freshIds| == 12
    ensures |FixOpener(shuffled)| == 12
    ensures CreateAll(BaseSet, FixOpener(shuffled), freshIds).Ok?
  {
    BaseSetCoversDeckIds();
    FixedIdsInstantiableIn(BaseSet, shuffled, freshIds);
  }

  lemma FixedIdsInstantiableIn(catalog: seq<Template>, shuffled: seq<string>, freshIds: seq<string>)
    requires CoversDeckIds(catalog)
    requires IsShuffle(shuffled) && |freshIds| == 12
    ensures |FixOpener(shuffled)| == 12
    ensures CreateAll(catalog, FixOpener(shuffled), freshIds).Ok?
  {
    FixedIdsKnown(shuffled);
    ShuffleInstantiable(catalog, FixOpener(shuffled), freshIds);
  }

  lemma FixedIdsKnown(shuffled: seq<string>)
    requires IsShuffle(shuffled)
    ensures |FixOpener(shuffled)| == 12
    ensures forall x :: x in FixOpener(shuffled) ==> x in AllCardIds
  {
    ShuffleLength(shuffled);
    FixOpenerProperties(shuffled);
    RearrangedIdsKnown(FixOpener(shuffled));
  }

  function TemplateIds(cards: seq<Card>): (r: seq<string>)
    ensures |r| == |cards| && forall i :: 0 <= i < |cards| ==> r[i] == cards[i].templateId
  {
    seq(|cards|, i requires 0 <= i < |cards| => cards[i].templateId)
  }

  /** What a successful `CreateAll` yields, card by card. */
  lemma CreatedCards(catalog: seq<Template>, ids: seq<string>, freshIds: seq<string>)
    requires CatalogNonNegative(catalog)
    requires |freshIds| == |ids| && CreateAll(catalog, ids, freshIds).Ok?
    ensures var cards := CreateAll(catalog, ids, freshIds).value;
            && TemplateIds(cards) == ids
            && (forall i :: 0 <= i < |ids| ==>
                  cards[i].id == freshIds[i] && IsFreshInstance(cards[i]) && cards[i].cost >= 0)
            && (forall i :: 0 <= i < |ids| ==> Ok(cards[i]) == CreateFrom(catalog, ids[i], freshIds[i]))
  {
    var cards := CreateAll(catalog, ids, freshIds).value;
    CreateAllItems(catalog, ids, freshIds);
    forall i | 0 <= i < |ids|
      ensures cards[i].templateId == ids[i]
      ensures cards[i].id == freshIds[i] && IsFreshInstance(cards[i]) && cards[i].cost >= 0
    {
      assert CreateFrom(catalog, ids[i], freshIds[i]) == Ok(cards[i]);
      CreateFromSpec(catalog, ids[i], freshIds[i]);
      CreatedCardStats(catalog, ids[i], freshIds[i]);
    }
  }

  /** A built deck lists the fixed-up shuffle in order, one fresh card per
      id, each with its own fresh id and a non-negative cost. */
  lemma BuiltDeckOrder(shuffled: seq<string>, freshIds: seq<string>)
    requires IsShuffle(shuffled) && |freshIds| == 12
    ensures var deck := BuiltDeck(shuffled, freshIds);
            && TemplateIds(deck) == FixOpener(shuffled)
            && (forall i :: 0 <= i < 12 ==>
                  deck[i].id == freshIds[i] && IsFreshInstance(deck[i]) && deck[i].cost >= 0)
            && (forall i :: 0 <= i < 12 ==> Ok(deck[i]) == CreateCard(deck[i].templateId, freshIds[i]))
  {
    BuiltDeckUnfold(shuffled, freshIds);
    BaseSetWellFormed();
    CreatedCards(BaseSet, FixOpener(shuffled), freshIds);
  }

  lemma HelicopterNotDealt()
    ensures "helicopter" !in AllCardIds
  {
    forall i | 0 <= i < |AllCardIds| ensures AllCardIds[i] != "helicopter" {
      CatalogIndexCorrect(i);
      BaseSetWellFormed();
    }
  }

  /** The template ids of a built deck are a rearrangement of `AllCardIds`,
      so "helicopter" never appears in one. */
  lemma BuiltDeckPermutes(shuffled: seq<string>, freshIds: seq<string>)
    requires IsShuffle(shuffled) && |freshIds| == 12
    ensures var deck := BuiltDeck(shuffled, freshIds);
            && multiset(TemplateIds(deck)) == multiset(AllCardIds)
            && "helicopter" !in TemplateIds(deck)
  {
    var ids := TemplateIds(BuiltDeck(shuffled, freshIds));
    BuiltDeckOrder(shuffled, freshIds);
    FixOpenerProperties(shuffled);
    assert multiset(ids) == multiset(shuffled);
    HelicopterNotDealt();
    RearrangedIdsKnown(ids);
  }

  /** Among the first five cards of every built deck there is an opener,
      which costs 1. */
  lemma BuiltDeckOpensPlayable(shuffled: seq<string>, freshIds: seq<string>)
    requires IsShuffle(shuffled) && |freshIds| == 12
    ensures var deck := BuiltDeck(shuffled, freshIds);
            exists i :: 0 <= i < 5 && deck[i].templateId == Opener && deck[i].cost == 1
  {
    var k := IndexOf(FixOpener(shuffled), Opener);
    ShuffleLength(shuffled);
    FixedOpenerEarly(shuffled);
    DeckCardAt(shuffled, freshIds, k);
    OpenerCostsOne(freshIds[k]);
  }

  /** After the fix-up the first opener sits at index 4 or before. */
  lemma FixedOpenerEarly(shuffled: seq<string>)
    requires IsShuffle(shuffled)
    ensures 0 <= IndexOf(FixOpener(shuffled), Opener) <= 4
  {
    FixOpenerProperties(shuffled);
    OpenerInShuffle(shuffled);
  }

  /** Card `k` of a built deck is created from id `k` of the fixed-up shuffle. */
  lemma DeckCardAt(shuffled: seq<string>, freshIds: seq<string>, k: nat)
    requires IsShuffle(shuffled) && |freshIds| == 12 && k < |shuffled|
    ensures FixOpener(shuffled)[k] == BuiltDeck(shuffled, freshIds)[k].templateId
    ensures Ok(BuiltDeck(shuffled, freshIds)[k]) == CreateCard(FixOpener(shuffled)[k], freshIds[k])
  {
    BuiltDeckOrder(shuffled, freshIds);
  }

  lemma OpenerInShuffle(shuffled: seq<string>)
    requires IsShuffle(shuffled)
    ensures Opener in shuffled
  {
    assert AllCardIds[0] == Opener;
    assert Opener in multiset(AllCardIds);
    assert Opener in multiset(shuffled);
  }

  /** Every card built from the "opener" template costs 1. */
  lemma OpenerCostsOne(freshId: string)
    ensures CreateCard(Opener, freshId).Ok? && CreateCard(Opener, freshId).value.cost == 1
  {
    assert BaseSet[0].templateId == Opener;
    assert FindTemplate(BaseSet, Opener) == Some(BaseSet[0]);
  }

  /** `createDeck`, over the outcome `shuffled` of the random sort: the ids
      are placed in an array, the first opener is swapped into place in that
      array, and the array is mapped to cards. */
  method CreateDeck(shuffled: seq<string>, freshIds: seq<string>) returns (deck: seq<Card>)
    requires IsShuffle(shuffled) && |freshIds| == 12
    ensures deck == BuiltDeck(shuffled, freshIds)
    ensures |deck| == 12 && multiset(TemplateIds(deck)) == multiset(AllCardIds)
    ensures exists i :: 0 <= i < 5 && deck[i].templateId == Opener && deck[i].cost == 1
  {
    ShuffleLength(shuffled);
    var ids := new string[|shuffled|](i requires 0 <= i < |shuffled| => shuffled[i]);
    assert ids[..] == shuffled;
    PlaceOpener(ids);
    var placed := ids[..];
    DeckFromFixedIds(shuffled, freshIds, placed);
    deck := CreateAll(BaseSet, placed, freshIds).value;
  }

  /** Mapping the fixed-up ids to cards gives the built deck, with all of
      `CreateDeck`'s guarantees. */
  lemma DeckFromFixedIds(shuffled: seq<string>, freshIds: seq<string>, placed: seq<string>)
    requires IsShuffle(shuffled) && |freshIds| == 12 && placed == FixOpener(shuffled)
    ensures |placed| == 12 && CreateAll(BaseSet, placed, freshIds).Ok?
    ensures var deck := CreateAll(BaseSet, placed, freshIds).value;
            && deck == BuiltDeck(shuffled, freshIds)
            && |deck| == 12 && multiset(TemplateIds(deck)) == multiset(AllCardIds)
            && exists i :: 0 <= i < 5 && deck[i].templateId == Opener && deck[i].cost == 1
  {
    BuiltDeckUnfold(shuffled, freshIds);
    BuiltDeckPermutes(shuffled, freshIds);
    BuiltDeckOpensPlayable(shuffled, freshIds);
  }

  /** Step 3 of `createDeck` in place: find the first opener and, if it is
      beyond index 4, swap it with index 0. */
  method PlaceOpener(a: array<string>)
    modifies a
    ensures a[..] == FixOpener(old(a[..]))
  {
    var k := IndexOf(a[..], Opener);
    if k > 4 {
      a[0], a[k] := a[k], a[0];
    }
  }
}
