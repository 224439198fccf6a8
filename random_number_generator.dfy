/**
 * The random-number-generator component: it keeps a GPU buffer of 32-bit seeds, filled
 * from a Mersenne-Twister generator seeded either with the `random_seed` option
 * (deterministic mode) or with a hardware random value, unless it can borrow the
 * stratified sampler's identical buffer. Each frame it decides whether that buffer must
 * be rebuilt.
 *
 * The generator is a parameter `gen`: `gen(seed, i)` is the `i`-th output of a generator
 * seeded with `seed`. The hardware random value is a parameter `entropy`. The buffer is
 * the sequence of its elements; the empty sequence stands for "no own buffer".
 */
module RandomNumberGenerator {
  import opened Basics
  import CT = CapsaicinTypes

  /** The `i`-th output of a generator seeded with `seed`. */
  type Generator = (u32, nat) -> u32

  datatype RenderOptions = RenderOptions(deterministic: bool, seed: u32)

  const DETERMINISTIC_KEY: string := "random_deterministic"
  const SEED_KEY: string := "random_seed"
  const STRATIFIED_SEED_KEY: string := "stratified_sampler_seed"
  const STRATIFIED_DETERMINISTIC_KEY: string := "stratified_sampler_deterministic"

  /** `getRenderOptions`. */
  function GetRenderOptions(o: RenderOptions): (list: CT.RenderOptionList)
    ensures HasOptions(list)
  {
    map[DETERMINISTIC_KEY := CT.BoolOption(o.deterministic), SEED_KEY := CT.U32Option(o.seed)]
  }

  predicate HasOptions(list: CT.RenderOptionList)
  {
    CT.HasBool(list, DETERMINISTIC_KEY) && CT.HasU32(list, SEED_KEY)
  }

  /** `convertOptions`. */
  function ConvertOptions(list: CT.RenderOptionList): (o: RenderOptions)
    requires HasOptions(list)
    ensures list[DETERMINISTIC_KEY] == CT.BoolOption(o.deterministic)
    ensures list[SEED_KEY] == CT.U32Option(o.seed)
  {
    RenderOptions(CT.GetBool(list, DETERMINISTIC_KEY), CT.GetU32(list, SEED_KEY))
  }

  /** The stratified sampler's options, read from the same option list. */
  predicate HasStratifiedOptions(list: CT.RenderOptionList)
  {
    CT.HasU32(list, STRATIFIED_SEED_KEY) && CT.HasBool(list, STRATIFIED_DETERMINISTIC_KEY)
  }

  /** The stratified sampler is configured exactly like `o`, so its seed buffer can be shared. */
  predicate StratifiedMatches(list: CT.RenderOptionList, o: RenderOptions)
    requires HasStratifiedOptions(list)
  {
    CT.GetU32(list, STRATIFIED_SEED_KEY) == o.seed && CT.GetBool(list, STRATIFIED_DETERMINISTIC_KEY) == o.deterministic
  }

  /** `init` builds its own buffer when there is no stratified sampler or it is configured differently. */
  predicate UsesOwnBuffer(hasStratified: bool, list: CT.RenderOptionList, o: RenderOptions)
    requires hasStratified ==> HasStratifiedOptions(list)
  {
    !hasStratified || !StratifiedMatches(list, o)
  }

  /** The number of seeds: at least a 1920 x 1080 frame's worth. */
  function SeedBufferLength(renderDims: Dims): (n: nat)
    ensures n >= 1920 * 1080
    ensures n >= renderDims.x as nat * renderDims.y as nat
  {
    var x, y := MaxU32(renderDims.x, 1920), MaxU32(renderDims.y, 1080);
    assert x as nat * y as nat >= renderDims.x as nat * y as nat >= renderDims.x as nat * renderDims.y as nat;
    x as nat * y as nat
  }

  /** The first `n` outputs of a generator seeded with `seed`. */
  function GeneratorOutputs(gen: Generator, seed: u32, n: nat): (s: seq<u32>)
    ensures |s| == n
    ensures forall i :: 0 <= i < n ==> s[i] == gen(seed, i)
  {
    seq(n, i requires 0 <= i => gen(seed, i))
  }

  /** The seed the buffer's generator starts from: the option in deterministic mode, else hardware entropy. */
  function GeneratorSeed(o: RenderOptions, entropy: u32): u32
  {
    if o.deterministic then o.seed else entropy
  }

  /** The loop of `init` that pushes `count` generator outputs. */
  method FillSeedBuffer(gen: Generator, seed: u32, count: nat) returns (data: seq<u32>)
    requires count < U32_MODULUS
    ensures data == GeneratorOutputs(gen, seed, count)
  {
    data := [];
    var i := 0;
    while i < count
      invariant i <= count
      invariant data == GeneratorOutputs(gen, seed, i)
    {
      data := data + [gen(seed, i)];
      i := i + 1;
    }
  }

  /**
   * Whether `run` rebuilds the buffer. With a borrowed buffer (`bufferLength` 0): when the
   * stratified sampler no longer matches. With its own buffer: when determinism is
   * toggled, when the seed changes in deterministic mode, or when the buffer's bytes no
   * longer cover the render size.
   */
  predicate RunUpdates(current: RenderOptions, next: RenderOptions, bufferLength: nat,
                       list: CT.RenderOptionList, renderDims: Dims)
    requires bufferLength == 0 ==> HasStratifiedOptions(list)
  {
    if bufferLength == 0 then !StratifiedMatches(list, next)
    else
      next.deterministic != current.deterministic
      || (current.deterministic && next.seed != current.seed)
      || 4 * SeedBufferLength(renderDims) > 4 * bufferLength
  }

  /** How the seed buffer is bound for a program. */
  datatype SeedBinding = SeedBinding(ownBuffer: bool, elementCount: u32)

  class RandomNumberGenerator {
    var options: RenderOptions
    var seedBuffer: seq<u32>

    /** The option defaults are declared in a header that is not part of this model. */
    constructor (defaults: RenderOptions)
      ensures options == defaults && seedBuffer == []
    {
      options := defaults;
      seedBuffer := [];
    }

    /** The buffer `init` leaves for options `o`. */
    ghost predicate InitialisedFor(o: RenderOptions, hasStratified: bool, list: CT.RenderOptionList,
                                   renderDims: Dims, gen: Generator, entropy: u32)
      requires hasStratified ==> HasStratifiedOptions(list)
      reads this
    {
      options == o
      && seedBuffer == (if UsesOwnBuffer(hasStratified, list, o)
                        then GeneratorOutputs(gen, GeneratorSeed(o, entropy), SeedBufferLength(renderDims))
                        else [])
    }

    /**
     * `init`: read the options; build the own seed buffer from the generator, or leave it
     * empty to borrow the stratified sampler's. `hasStratified` is whether that component
     * exists.
     */
    method Init(list: CT.RenderOptionList, hasStratified: bool, renderDims: Dims, gen: Generator, entropy: u32)
      returns (ok: bool)
      requires HasOptions(list)
      requires hasStratified ==> HasStratifiedOptions(list)
      requires SeedBufferLength(renderDims) < U32_MODULUS
      modifies this
      ensures ok
      ensures InitialisedFor(ConvertOptions(list), hasStratified, list, renderDims, gen, entropy)
    {
      options := ConvertOptions(list);
      if !hasStratified || !StratifiedMatches(list, options) {
        var count := SeedBufferLength(renderDims);
        var data;
        if options.deterministic {
          data := FillSeedBuffer(gen, options.seed, count);
        } else {
          data := FillSeedBuffer(gen, entropy, count);
        }
        seedBuffer := data;
      } else {
        seedBuffer := [];
      }
      ok := true;
    }

    /**
     * `run`: rebuild the buffer when `RunUpdates` says so, and apply the new options.
     * A mismatching borrowed buffer runs `init` twice, first with `firstEntropy`, then
     * with `entropy`; only the second one's buffer remains.
     */
    method Run(list: CT.RenderOptionList, hasStratified: bool, renderDims: Dims, gen: Generator,
               firstEntropy: u32, entropy: u32)
      requires HasOptions(list)
      requires hasStratified ==> HasStratifiedOptions(list)
      requires |seedBuffer| == 0 ==> HasStratifiedOptions(list)
      requires SeedBufferLength(renderDims) < U32_MODULUS
      modifies this
      ensures options == ConvertOptions(list)
      ensures RunUpdates(old(options), ConvertOptions(list), |old(seedBuffer)|, list, renderDims) ==>
        InitialisedFor(ConvertOptions(list), hasStratified, list, renderDims, gen, entropy)
      ensures !RunUpdates(old(options), ConvertOptions(list), |old(seedBuffer)|, list, renderDims) ==>
        seedBuffer == old(seedBuffer)
    {
      var optionsNew := ConvertOptions(list);
      var usingStratifiedBuffer := |seedBuffer| == 0;
      var update := false;
      if usingStratifiedBuffer {
        usingStratifiedBuffer := StratifiedMatches(list, optionsNew);
        if !usingStratifiedBuffer {
          var _ := Init(list, hasStratified, renderDims, gen, firstEntropy);
          update := true;
        }
      } else {
        update := optionsNew.deterministic != options.deterministic
          || (options.deterministic && optionsNew.seed != options.seed)
          || 4 * SeedBufferLength(renderDims) > 4 * |seedBuffer|;
      }
      options := optionsNew;

      if update {
        seedBuffer := [];
        var _ := Init(list, hasStratified, renderDims, gen, entropy);
      }
    }

    /** `terminate`: release the own buffer. */
    method Terminate()
      modifies this
      ensures seedBuffer == [] && options == old(options)
    {
      seedBuffer := [];
    }

    /**
     * `addProgramParameters`: bind the own buffer, or the stratified sampler's whose size in
     * bytes is `stratifiedBytes`, with its element count as byte size / 4, cast to 32 bits.
     */
    method ProgramParameters(stratifiedBytes: nat) returns (b: SeedBinding)
      ensures b.ownBuffer <==> |seedBuffer| > 0
      ensures b.ownBuffer ==> b.elementCount as int == |seedBuffer| % U32_MODULUS
      ensures !b.ownBuffer ==> b.elementCount as int == (stratifiedBytes / 4) % U32_MODULUS
    {
      if |seedBuffer| > 0 {
        var bytes := 4 * |seedBuffer|;
        b := SeedBinding(true, WrapU32(bytes / 4));
      } else {
        b := SeedBinding(false, WrapU32(stratifiedBytes / 4));
      }
    }
  }

  // ---------------------------------------------------------------------------
  // Properties

  /** The option list round-trips. */
  lemma OptionsRoundTrip(o: RenderOptions)
    ensures ConvertOptions(GetRenderOptions(o)) == o
  {
  }

  /** In deterministic mode the buffer depends on the seed alone: equal seeds give equal buffers. */
  lemma DeterministicBuffersAgree(gen: Generator, o1: RenderOptions, o2: RenderOptions, e1: u32, e2: u32, dims: Dims)
    requires o1.deterministic && o2.deterministic && o1.seed == o2.seed
    ensures GeneratorOutputs(gen, GeneratorSeed(o1, e1), SeedBufferLength(dims))
         == GeneratorOutputs(gen, GeneratorSeed(o2, e2), SeedBufferLength(dims))
  {
  }

  /** An own buffer always covers the render size. */
  lemma OwnBufferCoversRenderSize(gen: Generator, seed: u32, dims: Dims)
    ensures |GeneratorOutputs(gen, seed, SeedBufferLength(dims))| >= dims.x as nat * dims.y as nat
    ensures |GeneratorOutputs(gen, seed, SeedBufferLength(dims))| >= 1920 * 1080
  {
  }

  /** In non-deterministic mode a seed change alone never rebuilds an own buffer. */
  lemma SeedOnlyChangeKeepsRandomBuffer(current: RenderOptions, next: RenderOptions, bufferLength: nat,
                                        list: CT.RenderOptionList, dims: Dims)
    requires bufferLength >= SeedBufferLength(dims)
    requires !current.deterministic && !next.deterministic
    ensures !RunUpdates(current, next, bufferLength, list, dims)
  {
  }

  /** With unchanged options and a buffer covering the render size, nothing is rebuilt. */
  lemma UnchangedOptionsKeepOwnBuffer(o: RenderOptions, bufferLength: nat, list: CT.RenderOptionList, dims: Dims)
    requires bufferLength >= SeedBufferLength(dims) && bufferLength > 0
    ensures !RunUpdates(o, o, bufferLength, list, dims)
  {
  }
}
