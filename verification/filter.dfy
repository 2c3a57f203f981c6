/**
 * The glob filter (src/filter.rs): a compiled set of glob patterns and a mode
 * saying whether a match admits (OptIn) or rejects (OptOut) a path.
 *
 * Glob syntax and matching belong to the `globset` library and are not
 * modelled: a `GlobEngine` supplies, for each pattern text, either a compile
 * error or an opaque test on paths, and for the whole pattern list the error
 * (if any) that building the set raises.
 */
module Filter {
  import opened Wrappers
  import opened Paths

  datatype FilterMode = OptIn | OptOut

  /** A `globset::Error`, reduced to its text. */
  datatype GlobError = GlobError(message: string)

  /** A compiled `Glob`: its source text and the test the library derived from it. */
  datatype Glob = Glob(pattern: string, matches: Path -> bool)

  /** A `GlobSet` matches a path when any one of its globs does. */
  datatype GlobSet = GlobSet(globs: seq<Glob>) {
    predicate IsMatch(p: Path) {
      exists i :: 0 <= i < |globs| && globs[i].matches(p)
    }
  }

  /** `Glob::new` (`compile`) and `GlobSetBuilder::build` (`build`), left to the library. */
  datatype GlobEngine = GlobEngine(
    compile: string -> Result<Path -> bool, GlobError>,
    build: seq<string> -> Option<GlobError>)

  /** `FsMessageFilter`. */
  datatype MessageFilter = MessageFilter(mode: FilterMode, globs: GlobSet) {
    /**
     * `is_match`: a path is admitted exactly when whether some glob matches it
     * agrees with the mode being OptIn, so a match admits under OptIn and
     * rejects under OptOut.
     */
    predicate IsMatch(p: Path)
      ensures IsMatch(p) <==> (globs.IsMatch(p) <==> mode == OptIn)
    {
      match mode
      case OptIn => globs.IsMatch(p)
      case OptOut => !globs.IsMatch(p)
    }
  }

  /** `FsMessageFilter::empty`: no patterns, opt-out, so nothing is rejected. */
  function Empty(): (f: MessageFilter)
    ensures f.mode == OptOut && f.globs.globs == []
    ensures forall p :: f.IsMatch(p)
  {
    MessageFilter(OptOut, GlobSet([]))
  }

  /** `Default for FsMessageFilter`: the filter used when none is configured. */
  function Default(): (f: MessageFilter)
    ensures f.mode == OptOut && f.globs.globs == []
    ensures forall p :: f.IsMatch(p)
  {
    Empty()
  }

  /** Over the same glob set the two modes give opposite answers on every path. */
  lemma ModesAreComplementary(globs: GlobSet, p: Path)
    ensures MessageFilter(OptIn, globs).IsMatch(p) != MessageFilter(OptOut, globs).IsMatch(p)
  {
  }

  /** Every pattern in `patterns` compiles. */
  predicate AllCompile(engine: GlobEngine, patterns: seq<string>) {
    forall i :: 0 <= i < |patterns| ==> engine.compile(patterns[i]).Ok?
  }

  /** Pattern `i` is the first one that does not compile. */
  predicate FirstFailure(engine: GlobEngine, patterns: seq<string>, i: int) {
    && 0 <= i < |patterns|
    && engine.compile(patterns[i]).Err?
    && forall j :: 0 <= j < i ==> engine.compile(patterns[j]).Ok?
  }

  /**
   * `FsMessageFilter::create`: compiles the patterns in order and stops at the
   * first one that fails; on success the requested mode is kept and the set
   * holds one compiled glob per pattern, in order.
   */
  method Create(mode: FilterMode, patterns: seq<string>, engine: GlobEngine) returns (r: Result<MessageFilter, GlobError>)
    ensures r.Ok? <==> AllCompile(engine, patterns) && engine.build(patterns).None?
    ensures r.Ok? ==> r.value.mode == mode && |r.value.globs.globs| == |patterns|
    ensures r.Ok? ==> forall i :: 0 <= i < |patterns| ==>
      r.value.globs.globs[i] == Glob(patterns[i], engine.compile(patterns[i]).value)
    ensures !AllCompile(engine, patterns) ==>
      exists i :: FirstFailure(engine, patterns, i) && r == Err(engine.compile(patterns[i]).error)
    ensures AllCompile(engine, patterns) && engine.build(patterns).Some? ==> r == Err(engine.build(patterns).value)
  {
    var builder: seq<Glob> := [];
    for n := 0 to |patterns|
      invariant |builder| == n
      invariant forall i :: 0 <= i < n ==> engine.compile(patterns[i]).Ok?
      invariant forall i :: 0 <= i < n ==> builder[i] == Glob(patterns[i], engine.compile(patterns[i]).value)
    {
      match engine.compile(patterns[n])
      case Err(e) =>
        assert FirstFailure(engine, patterns, n);
        return Err(e);
      case Ok(test) =>
        builder := builder + [Glob(patterns[n], test)];
    }
    match engine.build(patterns)
    case Some(e) =>
      r := Err(e);
    case None =>
      r := Ok(MessageFilter(mode, GlobSet(builder)));
  }
}
