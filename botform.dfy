/** The whitelist form of the bot page (pages/BotActivity.tsx): the fields the user edits, the
    error line, the classifier's answer, and the two handlers that guard the store and the
    classifier with `validateIdentifier`. The asynchronous classifier call is split into the
    step that decides to call it and the step that receives its answer. */
module BotForm {
  import opened Types
  import opened Text
  import opened Analysis
  import Identifier
  import Store
  import Seed

  /** The record `handleAdd` builds; its id and time come from one clock reading. */
  function NewBot(name: string, identifier: string, botType: BotType, now: nat): (b: BotWhitelistEntry)
    ensures b.name == name && b.identifier == identifier && b.botType == botType
    ensures b.addedBy == "Admin User" && b.id == "BOT-" + Decimal(now) && b.addedAt == Instant(now)
  {
    BotWhitelistEntry("BOT-" + Decimal(now), name, identifier, botType, "Admin User", Instant(now))
  }

  /** Every whitelist entry has an identifier the validator accepts. */
  predicate AllValidated(bs: seq<BotWhitelistEntry>)
  {
    forall i :: 0 <= i < |bs| ==> Identifier.ValidateIdentifier(bs[i].identifier) == None
  }

  /** Removing entries keeps the whitelist validated. */
  lemma {:induction false} RemovalKeepsValidated(bs: seq<BotWhitelistEntry>, id: string)
    requires AllValidated(bs)
    ensures AllValidated(Store.WithoutBot(bs, id))
  {
    var r := Store.WithoutBot(bs, id);
    forall i | 0 <= i < |r|
      ensures Identifier.ValidateIdentifier(r[i].identifier) == None
    {
      assert r[i] in r;
      var j :| 0 <= j < |bs| && bs[j] == r[i];
    }
  }

  /** Prepending an element that has a property to a list all of whose elements have it gives such a list. */
  lemma PrependKeepsAll<T>(xs: seq<T>, x: T, p: T -> bool)
    requires p(x) && forall i :: 0 <= i < |xs| ==> p(xs[i])
    ensures forall i :: 0 <= i < |[x] + xs| ==> p(([x] + xs)[i])
  {
    forall i | 0 <= i < |[x] + xs|
      ensures p(([x] + xs)[i])
    {
      if i > 0 {
        assert ([x] + xs)[i] == xs[i - 1];
      }
    }
  }

  /** Prepending an entry whose identifier is accepted keeps the whitelist validated. */
  lemma PrependKeepsValidated(bs: seq<BotWhitelistEntry>, b: BotWhitelistEntry)
    requires AllValidated(bs) && Identifier.ValidateIdentifier(b.identifier) == None
    ensures AllValidated([b] + bs)
  {
    PrependKeepsAll(bs, b, (e: BotWhitelistEntry) => Identifier.ValidateIdentifier(e.identifier) == None);
  }

  /** The seed whitelist is validated, so every whitelist the page can reach is. */
  lemma SeedValidated(now: int)
    ensures AllValidated(Seed.MockBotWhitelist(now))
  {
    var bs := Seed.MockBotWhitelist(now);
    Seed.SeedWhitelistValid(now);
    assert forall i :: 0 <= i < |bs| ==> bs[i] in bs;
  }

  class BotWhitelistForm {
    var name: string
    var identifier: string
    var botType: BotType
    var error: Option<string>
    var analysisResult: Option<BotAnalysisResult>
    var isAnalyzing: bool

    constructor ()
      ensures name == "" && identifier == "" && botType == Internal
      ensures error == None && analysisResult == None && !isAnalyzing
    {
      name := "";
      identifier := "";
      botType := Internal;
      error := None;
      analysisResult := None;
      isAnalyzing := false;
    }

    /** Typing in the identifier field clears the error and the previous answer. */
    method EditIdentifier(value: string)
      modifies this`identifier, this`error, this`analysisResult
      ensures identifier == value && error == None && analysisResult == None
    {
      identifier := value;
      error := None;
      analysisResult := None;
    }

    /** `handleAdd`. Nothing is added when a field is empty or the identifier is refused, and a
        refusal is shown; otherwise exactly one entry is prepended, the two text fields are cleared,
        the answer is dropped and the chosen type stays. */
    method Add(store: Store.DataStore, now: nat) returns (added: bool)
      requires store.Valid()
      modifies this`name, this`identifier, this`error, this`analysisResult, store`botWhitelist
      ensures store.Valid()
      ensures added <==> old(name) != "" && old(identifier) != "" && Identifier.ValidateIdentifier(old(identifier)) == None
      ensures added ==> store.botWhitelist == [NewBot(old(name), old(identifier), botType, now)] + old(store.botWhitelist)
      ensures added ==> name == "" && identifier == "" && analysisResult == None && error == None
      ensures !added ==> store.botWhitelist == old(store.botWhitelist)
      ensures !added ==> name == old(name) && identifier == old(identifier) && analysisResult == old(analysisResult)
      ensures !added && old(name) != "" && old(identifier) != "" ==> error == Identifier.ValidateIdentifier(old(identifier))
      ensures !added && (old(name) == "" || old(identifier) == "") ==> error == None
      ensures botType == old(botType)
      ensures AllValidated(old(store.botWhitelist)) ==> AllValidated(store.botWhitelist)
    {
      var bot := NewBot(name, identifier, botType, now);
      error := None;
      if name == "" || identifier == "" {
        return false;
      }
      var validationError := Identifier.ValidateIdentifier(identifier);
      if validationError.Some? {
        error := validationError;
        return false;
      }
      if AllValidated(store.botWhitelist) {
        PrependKeepsValidated(store.botWhitelist, bot);
      }
      store.AddBotToWhitelist(bot);
      name := "";
      identifier := "";
      analysisResult := None;
      added := true;
    }

    /** The first half of `handleAnalyze`: whether the classifier is called at all. It is never
        called for an empty or refused identifier; a refusal is shown. */
    method StartAnalyze() returns (call: bool)
      modifies this`error, this`isAnalyzing
      ensures call <==> identifier != "" && Identifier.ValidateIdentifier(identifier) == None
      ensures identifier == "" ==> error == old(error) && isAnalyzing == old(isAnalyzing)
      ensures identifier != "" && !call ==> error == Identifier.ValidateIdentifier(identifier) && isAnalyzing == old(isAnalyzing)
      ensures call ==> error == None && isAnalyzing
    {
      if identifier == "" {
        return false;
      }
      var valError := Identifier.ValidateIdentifier(identifier);
      if valError.Some? {
        error := valError;
        return false;
      }
      error := None;
      isAnalyzing := true;
      call := true;
    }

    /** The second half of `handleAnalyze`: the answer is kept, and a suggested type is selected. */
    method FinishAnalyze(result: BotAnalysisResult)
      modifies this`analysisResult, this`botType, this`isAnalyzing
      ensures analysisResult == Some(result) && !isAnalyzing
      ensures botType == if result.suggestedType.Some? then result.suggestedType.value else old(botType)
    {
      analysisResult := Some(result);
      if result.suggestedType.Some? {
        botType := result.suggestedType.value;
      }
      isAnalyzing := false;
    }
  }
}
