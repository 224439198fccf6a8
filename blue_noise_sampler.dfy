/**
 * The blue-noise sampler component: it uploads three constant tables (a Sobol sequence,
 * ranking tiles and scrambling tiles) and keeps a 32-bit random seed for the shaders.
 * When determinism is toggled, or the seed option changes in deterministic mode, it
 * draws a new seed: the first output of a Mersenne-Twister generator seeded with the
 * option, or with a hardware random value.
 *
 * As in the random-number-generator model, `gen(seed, i)` is the `i`-th output of a
 * generator seeded with `seed` and `entropy` is the hardware random value. The tables'
 * contents are not modelled; `tablesCreated` records whether the three buffers exist.
 */
module BlueNoiseSampler {
  import opened Basics
  import CT = CapsaicinTypes

  type Generator = (u32, nat) -> u32

  datatype RenderOptions = RenderOptions(deterministic: bool, seed: u32)

  const DETERMINISTIC_KEY: string := "blue_noise_sampler_deterministic"
  const SEED_KEY: string := "blue_noise_sampler_seed"

  /** `getRenderOptions`. */
  function GetRenderOptions(o: RenderOptions): (list: CT.RenderOptionList)
    ensures HasOptions(list)
  {
    map[DETERMINISTIC_KEY := CT.BoolOption(o.deterministic), SEED_KEY := CT.U32Option(o.seed)]
  }

  predicate HasOptions(list: CT.RenderOptionList)
  {
    CT.HasBool(list, DETERMINISTIC_KEY) && CT.HasU32(list, SEED_KEY)
  }

  /** `convertOptions`. */
  function ConvertOptions(list: CT.RenderOptionList): (o: RenderOptions)
    requires HasOptions(list)
    ensures list[DETERMINISTIC_KEY] == CT.BoolOption(o.deterministic)
    ensures list[SEED_KEY] == CT.U32Option(o.seed)
  {
    RenderOptions(CT.GetBool(list, DETERMINISTIC_KEY), CT.GetU32(list, SEED_KEY))
  }

  /** `run` draws a new seed when determinism is toggled or, in deterministic mode, the seed changes. */
  predicate Reseeds(current: RenderOptions, next: RenderOptions)
  {
    next.deterministic != current.deterministic || (current.deterministic && next.seed != current.seed)
  }

  /** The seed drawn for options `o`. */
  function DrawnSeed(gen: Generator, o: RenderOptions, entropy: u32): u32
  {
    if o.deterministic then gen(o.seed, 0) else gen(entropy, 0)
  }

  /** What `addProgramParameters` binds. */
  datatype Binding = Binding(tablesBound: bool, randomSeed: u32)

  class BlueNoiseSampler {
    var options: RenderOptions
    var randomSeed: u32
    var tablesCreated: bool

    /** The option defaults and the initial seed are declared in a header that is not part of this model. */
    constructor (defaults: RenderOptions, initialSeed: u32)
      ensures options == defaults && randomSeed == initialSeed && !tablesCreated
    {
      options := defaults;
      randomSeed := initialSeed;
      tablesCreated := false;
    }

    /** `init`: upload the three tables; the options and the seed are left as they were. */
    method Init() returns (ok: bool)
      modifies this
      ensures ok && tablesCreated
      ensures options == old(options) && randomSeed == old(randomSeed)
    {
      tablesCreated := true;
      ok := true;
    }

    /** `run`: reseed when `Reseeds` says so, then apply the new options. */
    method Run(list: CT.RenderOptionList, gen: Generator, entropy: u32)
      requires HasOptions(list)
      modifies this
      ensures options == ConvertOptions(list)
      ensures tablesCreated == old(tablesCreated)
      ensures Reseeds(old(options), options) ==> randomSeed == DrawnSeed(gen, options, entropy)
      ensures !Reseeds(old(options), options) ==> randomSeed == old(randomSeed)
    {
      var optionsNew := ConvertOptions(list);
      if optionsNew.deterministic != options.deterministic
        || (options.deterministic && optionsNew.seed != options.seed)
      {
        if optionsNew.deterministic {
          randomSeed := gen(optionsNew.seed, 0);
        } else {
          randomSeed := gen(entropy, 0);
        }
      }
      options := optionsNew;
    }

    /** `terminate`: release the three tables. */
    method Terminate()
      modifies this
      ensures !tablesCreated
      ensures options == old(options) && randomSeed == old(randomSeed)
    {
      tablesCreated := false;
    }

    /** `addProgramParameters`: the three tables and the current seed. */
    method ProgramParameters() returns (b: Binding)
      ensures b.tablesBound == tablesCreated && b.randomSeed == randomSeed
    {
      b := Binding(tablesCreated, randomSeed);
    }
  }

  // ---------------------------------------------------------------------------
  // Properties

  /** The option list round-trips. */
  lemma OptionsRoundTrip(o: RenderOptions)
    ensures ConvertOptions(GetRenderOptions(o)) == o
  {
  }

  /** Unchanged options never reseed. */
  lemma UnchangedOptionsKeepSeed(o: RenderOptions)
    ensures !Reseeds(o, o)
  {
  }

  /** In non-deterministic mode a seed change alone does not reseed. */
  lemma SeedOnlyChangeKeepsRandomSeed(current: RenderOptions, next: RenderOptions)
    requires !current.deterministic && !next.deterministic
    ensures !Reseeds(current, next)
  {
  }

  /** Switching to deterministic mode, or changing the seed in it, reseeds from the option alone. */
  lemma DeterministicSeedIsReproducible(gen: Generator, current: RenderOptions, next: RenderOptions,
                                        e1: u32, e2: u32)
    requires next.deterministic && (!current.deterministic || next.seed != current.seed)
    ensures Reseeds(current, next)
    ensures DrawnSeed(gen, next, e1) == DrawnSeed(gen, next, e2) == gen(next.seed, 0)
  {
  }
}
