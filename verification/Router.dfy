/** The model router: fallback between providers, repair of unusable replies, and what it all cost. */
module Router {
  import Domain
  import Metrics
  import opened Retry

  datatype Completion = Completion(text: string, promptTokens: nat, completionTokens: nat, model: string)

  datatype ModelSpec = ModelSpec(provider: string, model: string, maxTokens: nat, temperature: real)

  datatype Tier = Strong | Mid | Cheap

  datatype Config = Config(
    tiers: seq<(Tier, ModelSpec)>, fallbackOrder: seq<string>, providerModels: map<string, string>,
    backoff: Policy, maxRepairAttempts: nat)

  datatype CallRecord = CallRecord(provider: string, model: string, attempts: nat, waited: real, rateLimited: bool,
                                   promptTokens: nat, completionTokens: nat)

  /** The specs of the tiers, in their configured order. */
  function SpecOf(tiers: seq<(Tier, ModelSpec)>, tier: Tier): Domain.Option<ModelSpec> {
    if tiers == [] then Domain.None
    else if tiers[0].0 == tier then Domain.Some(tiers[0].1)
    else SpecOf(tiers[1..], tier)
  }

  function FirstFor(tiers: seq<(Tier, ModelSpec)>, provider: string): Domain.Option<ModelSpec> {
    if tiers == [] then Domain.None
    else if tiers[0].1.provider == provider then Domain.Some(tiers[0].1)
    else FirstFor(tiers[1..], provider)
  }

  /** The spec a fallback provider uses: its own tier's, or its own model; never another vendor's. */
  function FallbackSpec(config: Config, provider: string, original: ModelSpec): Domain.Option<ModelSpec> {
    if FirstFor(config.tiers, provider).Some? then FirstFor(config.tiers, provider)
    else if provider in config.providerModels
    then Domain.Some(ModelSpec(provider, config.providerModels[provider], original.maxTokens, original.temperature))
    else Domain.None
  }

  function Except(names: seq<string>, name: string): seq<string> {
    if names == [] then []
    else if names[0] == name then Except(names[1..], name)
    else [names[0]] + Except(names[1..], name)
  }

  function Order(config: Config, spec: ModelSpec): seq<string> {
    [spec.provider] + Except(config.fallbackOrder, spec.provider)
  }

  function ActiveSpec(config: Config, registered: set<string>, provider: string, spec: ModelSpec): Domain.Option<ModelSpec> {
    if provider !in registered then Domain.None
    else if provider == spec.provider then Domain.Some(spec)
    else FallbackSpec(config, provider, spec)
  }

  /** The providers of an order that can be tried. */
  function Usable(config: Config, registered: set<string>, spec: ModelSpec, order: seq<string>): seq<string> {
    if order == [] then []
    else
      var before := Usable(config, registered, spec, order[..|order| - 1]);
      var last := order[|order| - 1];
      if ActiveSpec(config, registered, last, spec).Some? then before + [last] else before
  }

  /** A provider can be tried exactly when it is registered and is the primary or can be fallen back on; the
      primary keeps the spec asked for. */
  lemma {:induction false} ActiveExactlyWhen(config: Config, registered: set<string>, provider: string, spec: ModelSpec)
    ensures ActiveSpec(config, registered, provider, spec).Some? <==>
            provider in registered && (provider == spec.provider || FallbackSpec(config, provider, spec).Some?)
    ensures spec.provider in registered ==> ActiveSpec(config, registered, spec.provider, spec) == Domain.Some(spec)
  {
  }

  /** A fallback never carries one vendor's model to another. */
  lemma {:induction false} FallbackKeepsToItsProvider(config: Config, registered: set<string>, provider: string, spec: ModelSpec)
    requires ActiveSpec(config, registered, provider, spec).Some?
    ensures ActiveSpec(config, registered, provider, spec).value.provider == provider
  {
    FirstForMatches(config.tiers, provider);
  }

  lemma {:induction false} FirstForMatches(tiers: seq<(Tier, ModelSpec)>, provider: string)
    ensures FirstFor(tiers, provider).Some? ==> FirstFor(tiers, provider).value.provider == provider
  {
    if tiers != [] {
      FirstForMatches(tiers[1..], provider);
    }
  }

  /** The spec of a tier is the first configured for it, if any is. */
  lemma {:induction false} SpecIsTheTiers(tiers: seq<(Tier, ModelSpec)>, tier: Tier)
    ensures match SpecOf(tiers, tier)
            case None => forall i | 0 <= i < |tiers| :: tiers[i].0 != tier
            case Some(spec) => exists i :: 0 <= i < |tiers| && tiers[i] == (tier, spec) && forall j | 0 <= j < i :: tiers[j].0 != tier
  {
    if tiers != [] && tiers[0].0 != tier {
      SpecIsTheTiers(tiers[1..], tier);
      if SpecOf(tiers, tier).Some? {
        var i :| 0 <= i < |tiers| - 1 && tiers[1..][i] == (tier, SpecOf(tiers, tier).value) && forall j | 0 <= j < i :: tiers[1..][j].0 != tier;
        assert tiers[i + 1] == (tier, SpecOf(tiers, tier).value);
        assert forall j | 0 < j < i + 1 :: tiers[j] == tiers[1..][j - 1];
      }
    } else if tiers != [] {
      assert tiers[0] == (tier, tiers[0].1);
    }
  }

  lemma {:induction false} FirstForIsFirst(tiers: seq<(Tier, ModelSpec)>, provider: string)
    ensures match FirstFor(tiers, provider)
            case None => forall i | 0 <= i < |tiers| :: tiers[i].1.provider != provider
            case Some(spec) => exists i :: 0 <= i < |tiers| && tiers[i].1 == spec && forall j | 0 <= j < i :: tiers[j].1.provider != provider
  {
    if tiers != [] && tiers[0].1.provider != provider {
      FirstForIsFirst(tiers[1..], provider);
      if FirstFor(tiers, provider).Some? {
        var i :| 0 <= i < |tiers| - 1 && tiers[1..][i].1 == FirstFor(tiers, provider).value && forall j | 0 <= j < i :: tiers[1..][j].1.provider != provider;
        assert tiers[i + 1].1 == FirstFor(tiers, provider).value;
        assert forall j | 0 < j < i + 1 :: tiers[j] == tiers[1..][j - 1];
      }
    } else if tiers != [] {
      assert tiers[0].1.provider == provider;
    }
  }

  /** A provider can be fallen back on exactly when a tier uses it or it has a model of its own; a tier's spec
      comes first, and its own model keeps the limits of the original. */
  lemma {:induction false} FallbackExactlyWhen(config: Config, provider: string, original: ModelSpec)
    ensures FallbackSpec(config, provider, original).Some? <==>
            (exists i :: 0 <= i < |config.tiers| && config.tiers[i].1.provider == provider) || provider in config.providerModels
    ensures (exists i :: 0 <= i < |config.tiers| && config.tiers[i].1.provider == provider) ==>
              exists i :: 0 <= i < |config.tiers| && FallbackSpec(config, provider, original) == Domain.Some(config.tiers[i].1)
    ensures !(exists i :: 0 <= i < |config.tiers| && config.tiers[i].1.provider == provider) && provider in config.providerModels ==>
              var spec := FallbackSpec(config, provider, original).value;
              spec.model == config.providerModels[provider] && spec == original.(provider := provider, model := spec.model)
  {
    FirstForIsFirst(config.tiers, provider);
    FirstForMatches(config.tiers, provider);
  }

  /** Leaving a name out drops it and keeps everything else in order. */
  lemma {:induction false} ExceptMeans(left: seq<string>, right: seq<string>, name: string, other: string)
    ensures Except(left + right, name) == Except(left, name) + Except(right, name)
    ensures Except([other], name) == if other == name then [] else [other]
  {
    if left == [] {
      assert left + right == right;
    } else {
      assert (left + right)[1..] == left[1..] + right;
      ExceptMeans(left[1..], right, name, other);
    }
  }

  lemma {:induction false} ExceptCounts(names: seq<string>, name: string, other: string)
    ensures multiset(Except(names, name))[other] == if other == name then 0 else multiset(names)[other]
  {
    if names != [] {
      ExceptCounts(names[1..], name, other);
      assert names == [names[0]] + names[1..];
    }
  }

  /** The primary comes first, exactly once, and every other fallback provider follows as often as configured. */
  lemma {:induction false} OrderCounts(config: Config, spec: ModelSpec, other: string)
    ensures Order(config, spec)[0] == spec.provider && multiset(Order(config, spec))[spec.provider] == 1
    ensures other != spec.provider ==> multiset(Order(config, spec))[other] == multiset(config.fallbackOrder)[other]
  {
    ExceptCounts(config.fallbackOrder, spec.provider, spec.provider);
    ExceptCounts(config.fallbackOrder, spec.provider, other);
  }

  lemma {:induction false} ExceptKeepsOrder(
      name: string, before: seq<string>, one: string, between: seq<string>, two: string, rest: seq<string>)
    requires one != name && two != name
    ensures Except(before + [one] + between + [two] + rest, name)
         == Except(before, name) + [one] + Except(between, name) + [two] + Except(rest, name)
  {
    ExceptMeans(before + [one] + between + [two], rest, name, two);
    ExceptMeans(before + [one] + between, [two], name, two);
    ExceptMeans(before + [one], between, name, one);
    ExceptMeans(before, [one], name, one);
  }

  /** Any two of them in the order they are configured in. */
  lemma {:induction false} OrderKeepsOrder(
      config: Config, spec: ModelSpec, before: seq<string>, one: string, between: seq<string>, two: string, rest: seq<string>)
    requires one != spec.provider && two != spec.provider
    requires config.fallbackOrder == before + [one] + between + [two] + rest
    ensures Order(config, spec) == [spec.provider] +
            (Except(before, spec.provider) + [one] + Except(between, spec.provider) + [two] + Except(rest, spec.provider))
  {
    ExceptKeepsOrder(spec.provider, before, one, between, two, rest);
  }

  datatype Generated =
    | Produced(completion: Completion, spec: ModelSpec)
    | NoProvider
    | AllFailed(failures: seq<string>)

  /** How the providers behave: repair round, position in the order, attempt. */
  type Script = nat -> nat -> nat -> Attempt<Completion>

  /** Provider `position` of the order cannot be tried, or gives up after all its attempts. */
  predicate Silent(config: Config, registered: set<string>, spec: ModelSpec,
                   behaviour: nat -> nat -> Attempt<Completion>, position: nat)
    requires config.backoff.Valid() && position < |Order(config, spec)|
  {
    || ActiveSpec(config, registered, Order(config, spec)[position], spec).None?
    || !OutcomeOf(behaviour(position), config.backoff.maxAttempts).Succeeded?
  }

  /** The answer of the providers from `position` on. */
  function AnswerFrom(config: Config, registered: set<string>, spec: ModelSpec,
                      behaviour: nat -> nat -> Attempt<Completion>, position: nat): Domain.Option<(Completion, ModelSpec)>
    requires config.backoff.Valid() && position <= |Order(config, spec)|
    decreases |Order(config, spec)| - position
  {
    if position == |Order(config, spec)| then Domain.None
    else if Silent(config, registered, spec, behaviour, position) then
      AnswerFrom(config, registered, spec, behaviour, position + 1)
    else
      Domain.Some((OutcomeOf(behaviour(position), config.backoff.maxAttempts).value,
                   ActiveSpec(config, registered, Order(config, spec)[position], spec).value))
  }

  function AnswerOf(config: Config, registered: set<string>, spec: ModelSpec,
                    behaviour: nat -> nat -> Attempt<Completion>): Domain.Option<(Completion, ModelSpec)>
    requires config.backoff.Valid()
  {
    AnswerFrom(config, registered, spec, behaviour, 0)
  }

  lemma {:induction false} AllSilentBefore(config: Config, registered: set<string>, spec: ModelSpec,
                                           behaviour: nat -> nat -> Attempt<Completion>, position: nat)
    requires config.backoff.Valid() && position <= |Order(config, spec)|
    requires forall q | 0 <= q < position :: Silent(config, registered, spec, behaviour, q)
    ensures AnswerOf(config, registered, spec, behaviour) == AnswerFrom(config, registered, spec, behaviour, position)
    ensures position == |Order(config, spec)| ==> AnswerOf(config, registered, spec, behaviour).None?
  {
    if position > 0 {
      AllSilentBefore(config, registered, spec, behaviour, position - 1);
    }
  }

  /** The answer is the first success in the order: a fallback is used exactly when everything before
      it was silent, and there is no answer exactly when everything was. */
  lemma {:induction false} AnswerIsTheFirstSuccess(config: Config, registered: set<string>, spec: ModelSpec,
                                behaviour: nat -> nat -> Attempt<Completion>, position: nat)
    requires config.backoff.Valid() && position <= |Order(config, spec)|
    requires forall q | 0 <= q < position :: Silent(config, registered, spec, behaviour, q)
    requires position < |Order(config, spec)| ==> !Silent(config, registered, spec, behaviour, position)
    ensures match AnswerOf(config, registered, spec, behaviour)
            case None => position == |Order(config, spec)|
            case Some((completion, active)) =>
              && position < |Order(config, spec)|
              && active.provider == Order(config, spec)[position]
              && (position == 0 ==> active == spec)
              && OutcomeOf(behaviour(position), config.backoff.maxAttempts) == Succeeded(completion)
  {
    AllSilentBefore(config, registered, spec, behaviour, position);
    if position < |Order(config, spec)| {
      FallbackKeepsToItsProvider(config, registered, Order(config, spec)[position], spec);
    }
  }

  /** Reply k is the answer of round k. */
  predicate AskedInTurn(config: Config, registered: set<string>, spec: ModelSpec, script: Script, replies: seq<Completion>)
    requires config.backoff.Valid()
  {
    forall k | 0 <= k < |replies| :: AskedIn(config, registered, spec, script, k, replies[k])
  }

  predicate AskedIn(config: Config, registered: set<string>, spec: ModelSpec, script: Script, round: nat, reply: Completion)
    requires config.backoff.Valid()
  {
    var answer := AnswerOf(config, registered, spec, script(round));
    answer.Some? && answer.value.0 == reply
  }

  /** The most calls one round can make. */
  function MostCalls(config: Config, registered: set<string>, spec: ModelSpec): nat {
    InRounds(|Usable(config, registered, spec, Order(config, spec))|, config.backoff.maxAttempts)
  }

  /** `most` calls in each of a number of rounds. */
  function InRounds(rounds: nat, most: nat): nat {
    if rounds == 0 then 0 else InRounds(rounds - 1, most) + most
  }

  lemma {:induction false} MoreRoundsMoreCalls(few: nat, many: nat, most: nat)
    requires few <= many
    ensures InRounds(few, most) <= InRounds(many, most)
  {
    if few < many {
      MoreRoundsMoreCalls(few, many - 1, most);
    }
  }

  lemma {:induction false} RoundsAreAProduct(rounds: nat, most: nat)
    ensures InRounds(rounds, most) == rounds * most
  {
    if rounds > 0 {
      RoundsAreAProduct(rounds - 1, most);
    }
  }

  /** The bound in closed form, from the configuration alone: repair rounds, times providers in the
      order, times attempts. */
  lemma {:induction false} MostCallsAltogether(config: Config, registered: set<string>, spec: ModelSpec)
    ensures InRounds(config.maxRepairAttempts + 1, MostCalls(config, registered, spec)) ==
            (config.maxRepairAttempts + 1) * MostCalls(config, registered, spec)
    ensures MostCalls(config, registered, spec) ==
            |Usable(config, registered, spec, Order(config, spec))| * config.backoff.maxAttempts
    ensures MostCalls(config, registered, spec) <= (1 + |config.fallbackOrder|) * config.backoff.maxAttempts
  {
    var usable := |Usable(config, registered, spec, Order(config, spec))|;
    RoundsAreAProduct(config.maxRepairAttempts + 1, MostCalls(config, registered, spec));
    RoundsAreAProduct(usable, config.backoff.maxAttempts);
    UsableFits(config, registered, spec, Order(config, spec));
    ExceptFits(config.fallbackOrder, spec.provider);
    MoreRoundsMoreCalls(usable, 1 + |config.fallbackOrder|, config.backoff.maxAttempts);
    RoundsAreAProduct(1 + |config.fallbackOrder|, config.backoff.maxAttempts);
  }

  lemma {:induction false} UsableFits(config: Config, registered: set<string>, spec: ModelSpec, order: seq<string>)
    ensures |Usable(config, registered, spec, order)| <= |order|
  {
    if order != [] {
      UsableFits(config, registered, spec, order[..|order| - 1]);
    }
  }

  lemma {:induction false} ExceptFits(names: seq<string>, name: string)
    ensures |Except(names, name)| <= |names|
  {
    if names != [] {
      ExceptFits(names[1..], name);
    }
  }

  ghost predicate NoneFits<T>(parse: string -> Domain.Option<T>, replies: seq<Completion>) {
    forall k | 0 <= k < |replies| :: parse(replies[k].text).None?
  }

  /** An answer counts as accepted at the first attempt exactly when its first reply was. */
  lemma {:induction false} FirstTryExactlyWhen<T>(config: Config, parse: string -> Domain.Option<T>, value: T, cost: Domain.Cost, replies: seq<Completion>)
    requires Accounted(config, parse, Completed(value, cost), replies)
    ensures Metrics.CallMade()(cost)
    ensures Metrics.FirstTry()(cost) <==> parse(replies[0].text).Some?
  {
    assert |replies| > 1 ==> replies[..|replies| - 1][0] == replies[0];
  }

  /** What an answer says about the replies that led to it. */
  ghost predicate Accounted<T>(config: Config, parse: string -> Domain.Option<T>, answer: Answer<T>, replies: seq<Completion>) {
    match answer
    case Completed(value, cost) =>
      && replies != []
      && NoneFits(parse, replies[..|replies| - 1])
      && parse(replies[|replies| - 1].text) == Domain.Some(value)
      && cost.calls == |replies| == cost.repairAttempts + 1 <= config.maxRepairAttempts + 1
      && cost.promptTokens == PromptTokens(replies)
      && cost.completionTokens == CompletionTokens(replies)
      && cost.eur == 0.0
    case BadOutput => |replies| == config.maxRepairAttempts + 1 && NoneFits(parse, replies)
    case Unavailable(_) => |replies| <= config.maxRepairAttempts && NoneFits(parse, replies)
    case NoModel => replies == []
  }

  type Draws = nat -> real

  datatype Answer<T> = Completed(value: T, cost: Domain.Cost) | BadOutput | Unavailable(generated: Generated) | NoModel

  function PromptTokens(replies: seq<Completion>): nat {
    if replies == [] then 0 else PromptTokens(replies[..|replies| - 1]) + replies[|replies| - 1].promptTokens
  }

  function CompletionTokens(replies: seq<Completion>): nat {
    if replies == [] then 0 else CompletionTokens(replies[..|replies| - 1]) + replies[|replies| - 1].completionTokens
  }

  /** No provider answers in this round. */
  predicate Deserted(config: Config, registered: set<string>, spec: ModelSpec, script: Script, round: nat)
    requires config.backoff.Valid()
  {
    AnswerOf(config, registered, spec, script(round)).None?
  }

  lemma {:induction false} AskedOnceMore(config: Config, registered: set<string>, spec: ModelSpec, script: Script,
                      replies: seq<Completion>, reply: Completion)
    requires config.backoff.Valid() && AskedInTurn(config, registered, spec, script, replies)
    requires AskedIn(config, registered, spec, script, |replies|, reply)
    ensures AskedInTurn(config, registered, spec, script, replies + [reply])
  {
    forall k | 0 <= k < |replies + [reply]| ensures AskedIn(config, registered, spec, script, k, (replies + [reply])[k]) {
      if k < |replies| {
        assert AskedIn(config, registered, spec, script, k, replies[k]);
      }
    }
  }

  lemma {:induction false} OneReplyMore<T>(config: Config, parse: string -> Domain.Option<T>, replies: seq<Completion>, reply: Completion)
    requires |replies| <= config.maxRepairAttempts && NoneFits(parse, replies)
    ensures PromptTokens(replies + [reply]) == PromptTokens(replies) + reply.promptTokens
    ensures CompletionTokens(replies + [reply]) == CompletionTokens(replies) + reply.completionTokens
    ensures match parse(reply.text)
            case None => NoneFits(parse, replies + [reply])
            case Some(value) =>
              var cost := Domain.Cost(|replies| + 1, PromptTokens(replies) + reply.promptTokens,
                                      CompletionTokens(replies) + reply.completionTokens, 0.0, |replies|);
              Accounted(config, parse, Completed(value, cost), replies + [reply])
  {
    assert (replies + [reply])[..|replies|] == replies;
  }

  /** The first `tried` providers of the order gave nothing; `failures` are those that could be asked. */
  predicate Tried(config: Config, registered: set<string>, spec: ModelSpec,
                  behaviour: nat -> nat -> Attempt<Completion>, tried: nat, failures: seq<string>)
    requires config.backoff.Valid()
  {
    && tried <= |Order(config, spec)|
    && failures == Usable(config, registered, spec, Order(config, spec)[..tried])
    && forall q | 0 <= q < tried :: Silent(config, registered, spec, behaviour, q)
  }

  lemma {:induction false} TriedStep(config: Config, registered: set<string>, spec: ModelSpec,
                  behaviour: nat -> nat -> Attempt<Completion>, tried: nat, failures: seq<string>)
    requires config.backoff.Valid() && Tried(config, registered, spec, behaviour, tried, failures)
    requires tried < |Order(config, spec)|
    ensures var name := Order(config, spec)[tried];
            match ActiveSpec(config, registered, name, spec)
            case None => Tried(config, registered, spec, behaviour, tried + 1, failures)
            case Some(active) =>
              && InRounds(|failures| + 1, config.backoff.maxAttempts) <= MostCalls(config, registered, spec)
              && match OutcomeOf(behaviour(tried), config.backoff.maxAttempts)
                 case Succeeded(completion) =>
                   AnswerOf(config, registered, spec, behaviour) == Domain.Some((completion, active)) && active.provider == name
                 case _ => Tried(config, registered, spec, behaviour, tried + 1, failures + [name])
  {
    UsableStep(config, registered, spec, Order(config, spec), tried, config.backoff.maxAttempts);
    AllSilentBefore(config, registered, spec, behaviour, tried);
    if ActiveSpec(config, registered, Order(config, spec)[tried], spec).Some? {
      FallbackKeepsToItsProvider(config, registered, Order(config, spec)[tried], spec);
    }
  }

  lemma {:induction false} TriedAll(config: Config, registered: set<string>, spec: ModelSpec,
                 behaviour: nat -> nat -> Attempt<Completion>, failures: seq<string>)
    requires config.backoff.Valid() && Tried(config, registered, spec, behaviour, |Order(config, spec)|, failures)
    ensures AnswerOf(config, registered, spec, behaviour).None?
    ensures failures == Usable(config, registered, spec, Order(config, spec))
    ensures InRounds(|failures|, config.backoff.maxAttempts) <= MostCalls(config, registered, spec)
  {
    AllSilentBefore(config, registered, spec, behaviour, |Order(config, spec)|);
    assert Order(config, spec)[..|Order(config, spec)|] == Order(config, spec);
  }

  /** One more record, of this completion by this provider. */
  predicate Logged(before: seq<CallRecord>, after: seq<CallRecord>, completion: Completion, spec: ModelSpec) {
    && |after| == |before| + 1
    && before <= after
    && var last := after[|before|];
       last.promptTokens == completion.promptTokens && last.completionTokens == completion.completionTokens &&
       last.model == completion.model && last.provider == spec.provider
  }

  class DefaultRouter {
    const config: Config
    const registered: set<string>
    var providerCalls: nat
    var log: seq<CallRecord>

    constructor (config: Config, registered: set<string>)
      requires config.backoff.Valid() && registered != {}
      ensures this.config == config && this.registered == registered && providerCalls == 0 && log == []
    {
      this.config, this.registered := config, registered;
      providerCalls, log := 0, [];
    }

    /** One provider, with the full retry budget. */
    method CallOnce(provider: nat -> Attempt<Completion>, draws: Draws)
      returns (outcome: Outcome<Completion>, attempts: nat, waited: real, rateLimited: bool)
      requires config.backoff.Valid() && forall k :: 0.0 <= draws(k) <= 1.0
      modifies this`providerCalls
      ensures outcome == OutcomeOf(provider, config.backoff.maxAttempts)
      ensures 1 <= attempts <= config.backoff.maxAttempts && providerCalls == old(providerCalls) + attempts
    {
      var waits;
      outcome, attempts, waits, waited, rateLimited := CallWithBackoff(config.backoff, provider, draws);
      providerCalls := providerCalls + attempts;
    }

    /** Try the providers in order, each with its full backoff budget, until one answers. */
    method Generate(spec: ModelSpec, behaviour: nat -> nat -> Attempt<Completion>, draws: Draws) returns (generated: Generated)
      requires config.backoff.Valid() && forall k :: 0.0 <= draws(k) <= 1.0
      modifies this
      ensures old(providerCalls) <= providerCalls
      ensures providerCalls - old(providerCalls) <= MostCalls(config, registered, spec)
      ensures generated.Produced? ==> Logged(old(log), log, generated.completion, generated.spec)
      ensures match AnswerOf(config, registered, spec, behaviour)
              case Some((completion, active)) => generated == Produced(completion, active)
              case None => !generated.Produced?
      ensures !generated.Produced? ==> log == old(log)
      ensures generated.NoProvider? <==> Usable(config, registered, spec, Order(config, spec)) == []
      ensures generated.AllFailed? ==> generated.failures == Usable(config, registered, spec, Order(config, spec))
    {
      var order := Order(config, spec);
      var failures: seq<string> := [];
      for p := 0 to |order|
        invariant Tried(config, registered, spec, behaviour, p, failures)
        invariant log == old(log)
        invariant old(providerCalls) <= providerCalls <= old(providerCalls) + InRounds(|failures|, config.backoff.maxAttempts)
      {
        TriedStep(config, registered, spec, behaviour, p, failures);
        var active := ActiveSpec(config, registered, order[p], spec);
        if active.Some? {
          var outcome, attempts, waited, rateLimited := CallOnce(behaviour(p), draws);
          if outcome.Succeeded? {
            var completion := outcome.value;
            log := log + [CallRecord(order[p], completion.model, attempts, waited, rateLimited,
                                     completion.promptTokens, completion.completionTokens)];
            return Produced(completion, active.value);
          }
          failures := failures + [order[p]];
        }
      }
      TriedAll(config, registered, spec, behaviour, failures);
      generated := if failures == [] then NoProvider else AllFailed(failures);
    }

    /** One round of a repair: what it may add to the calls and to the log. */
    method Round(spec: ModelSpec, script: Script, round: nat, draws: Draws, ghost most: nat) returns (generated: Generated)
      requires config.backoff.Valid() && forall k :: 0.0 <= draws(k) <= 1.0
      requires most == MostCalls(config, registered, spec)
      modifies this
      ensures providerCalls <= old(providerCalls) + most
      ensures old(log) <= log && |log| == |old(log)| + if generated.Produced? then 1 else 0
      ensures !generated.Produced? ==> Deserted(config, registered, spec, script, round)
      ensures generated.Produced? ==> AskedIn(config, registered, spec, script, round, generated.completion)
    {
      generated := Generate(spec, script(round), draws);
    }

    /** Ask, check the reply against the schema, and show the model its mistake until the repairs run out. */
    method AskUntilItFits<T>(spec: ModelSpec, script: Script, draws: Draws, parse: string -> Domain.Option<T>)
      returns (answer: Answer<T>, replies: seq<Completion>)
      requires config.backoff.Valid() && forall k :: 0.0 <= draws(k) <= 1.0
      modifies this
      ensures !answer.NoModel? && Accounted(config, parse, answer, replies)
      ensures |log| == |old(log)| + |replies| && old(log) <= log
      ensures providerCalls - old(providerCalls) <=
              InRounds(config.maxRepairAttempts + 1, MostCalls(config, registered, spec))
      ensures AskedInTurn(config, registered, spec, script, replies)
      ensures answer.Unavailable? ==> Deserted(config, registered, spec, script, |replies|)
    {
      replies := [];
      var calls, promptTokens, completionTokens: nat := 0, 0, 0;
      ghost var most := MostCalls(config, registered, spec);
      for attempt := 0 to config.maxRepairAttempts + 1
        invariant calls == |replies| == attempt
        invariant promptTokens == PromptTokens(replies) && completionTokens == CompletionTokens(replies)
        invariant |log| == |old(log)| + |replies| && old(log) <= log
        invariant NoneFits(parse, replies)
        invariant AskedInTurn(config, registered, spec, script, replies)
        invariant providerCalls - old(providerCalls) <= InRounds(attempt, most)
      {
        var generated := Round(spec, script, attempt, draws, most);
        MoreRoundsMoreCalls(attempt + 1, config.maxRepairAttempts + 1, most);
        if !generated.Produced? {
          return Unavailable(generated), replies;
        }
        var completion := generated.completion;
        AskedOnceMore(config, registered, spec, script, replies, completion);
        OneReplyMore(config, parse, replies, completion);
        replies := replies + [completion];
        calls := calls + 1;
        promptTokens := promptTokens + completion.promptTokens;
        completionTokens := completionTokens + completion.completionTokens;
        var parsed := parse(completion.text);
        if parsed.Some? {
          return Completed(parsed.value, Domain.Cost(calls, promptTokens, completionTokens, 0.0, attempt)), replies;
        }
      }
      answer := BadOutput;
    }

    /** One structured completion for a tier. */
    method Complete<T>(tier: Tier, script: Script, draws: Draws, parse: string -> Domain.Option<T>)
      returns (answer: Answer<T>, replies: seq<Completion>)
      requires config.backoff.Valid() && forall k :: 0.0 <= draws(k) <= 1.0
      modifies this
      ensures Accounted(config, parse, answer, replies)
      ensures |log| == |old(log)| + |replies| && old(log) <= log
      ensures answer.NoModel? <==> SpecOf(config.tiers, tier).None?
      ensures answer.NoModel? ==> providerCalls == old(providerCalls)
      ensures SpecOf(config.tiers, tier).Some? ==>
                && providerCalls - old(providerCalls) <=
                   InRounds(config.maxRepairAttempts + 1, MostCalls(config, registered, SpecOf(config.tiers, tier).value))
                && AskedInTurn(config, registered, SpecOf(config.tiers, tier).value, script, replies)
                && (answer.Unavailable? ==> Deserted(config, registered, SpecOf(config.tiers, tier).value, script, |replies|))
    {
      var spec := SpecOf(config.tiers, tier);
      if spec.None? {
        return NoModel, [];
      }
      answer, replies := AskUntilItFits(spec.value, script, draws, parse);
    }
  }

  lemma {:induction false} UsablePrefix(config: Config, registered: set<string>, spec: ModelSpec, order: seq<string>, p: nat)
    requires p <= |order|
    ensures Usable(config, registered, spec, order[..p]) <= Usable(config, registered, spec, order)
  {
    if p == |order| {
      assert order[..p] == order;
    } else {
      var init := order[..|order| - 1];
      assert init[..p] == order[..p];
      UsablePrefix(config, registered, spec, init, p);
    }
  }

  lemma {:induction false} UsableStep(config: Config, registered: set<string>, spec: ModelSpec, order: seq<string>, p: nat, most: nat)
    requires p < |order|
    ensures var before, upTo := Usable(config, registered, spec, order[..p]), Usable(config, registered, spec, order[..p + 1]);
            && upTo == (if ActiveSpec(config, registered, order[p], spec).Some? then before + [order[p]] else before)
            && InRounds(|upTo|, most) <= InRounds(|Usable(config, registered, spec, order)|, most)
  {
    assert order[..p + 1][..p] == order[..p];
    UsablePrefix(config, registered, spec, order, p + 1);
    MoreRoundsMoreCalls(|Usable(config, registered, spec, order[..p + 1])|, |Usable(config, registered, spec, order)|, most);
  }
}
