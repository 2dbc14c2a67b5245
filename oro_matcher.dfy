/**
 * The Jakarta-ORO implementation of the build tool's regular-expression
 * matcher capability.
 *
 * The ORO library itself (Perl5Compiler.compile, Perl5Matcher.contains and
 * Perl5Matcher.getMatch) is not part of this model. It is represented by two
 * uninterpreted total functions: `compile`, which either yields a compiled
 * pattern or the exception the library threw, and `search`, which yields the
 * match the library finds in an input, if any. The matcher object keeps the
 * last match it found, exactly as Perl5Matcher does, and that state is a field
 * of the Perl5Matcher class below.
 */
module OroRegexp {
  import opened Wrappers

  /** A bit position of a Java int. */
  type Bit = b: int | 0 <= b < 32 witness 0

  /**
   * A Java int used as a bit mask, seen as the set of positions of its 1-bits:
   * `a & b` is `a * b`, `a | b` is `a + b`, and `a & b != 0` is `a * b != {}`.
   */
  type Bits = set<Bit>

  /** MATCH_DEFAULT, the value 0: no modifier. */
  const MATCH_DEFAULT: Bits := {}

  /** RegexpUtil.hasFlag: some bit of the flag is present in the options. */
  predicate HasFlag(options: Bits, flag: Bits) {
    options * flag != {}
  }

  /**
   * MATCH_CASE_INSENSITIVE, MATCH_MULTILINE and MATCH_SINGLELINE, each a
   * single bit, given by its position.
   */
  datatype MatchFlags = MatchFlags(caseInsensitive: Bit, multiline: Bit, singleline: Bit)

  /**
   * Perl5Compiler's DEFAULT_MASK (any bits) and CASE_INSENSITIVE_MASK,
   * MULTILINE_MASK and SINGLELINE_MASK (each a single bit, given by its position).
   */
  datatype CompilerMasks = CompilerMasks(defaultMask: Bits, caseInsensitiveMask: Bit, multilineMask: Bit, singlelineMask: Bit)
  {
    /** The three modifier bits are distinct, and DEFAULT_MASK carries none of them. */
    predicate Valid() {
      && caseInsensitiveMask != multilineMask && caseInsensitiveMask != singlelineMask
      && multilineMask != singlelineMask
      && caseInsensitiveMask !in defaultMask && multilineMask !in defaultMask && singlelineMask !in defaultMask
    }

    /** All bits that one of the three modifiers can contribute. */
    function ModifierBits(): Bits {
      {caseInsensitiveMask, multilineMask, singlelineMask}
    }
  }

  /** An ORO Perl5Pattern: the expression and the compiler options it was compiled with. */
  datatype Perl5Pattern = Perl5Pattern(expression: string, options: Bits)

  /**
   * An ORO MatchResult: groups[i] is group(i), None where the group did not
   * take part in the match; groups() is the length of the sequence.
   */
  datatype MatchResult = MatchResult(groups: seq<Option<string>>)

  /** An exception thrown inside the ORO library (a malformed pattern, a null pattern, ...). */
  datatype Fault = Fault(description: string)

  /** org.apache.tools.ant.BuildException, wrapping the exception it was created from. */
  datatype BuildException = BuildException(cause: Fault)

  /** Perl5Compiler.compile(pattern, options), as the library behaves. */
  type Compiler = (Option<string>, Bits) -> Result<Perl5Pattern, Fault>

  /** What Perl5Matcher.contains(input, pattern) finds, as the library behaves. */
  type Searcher = (string, Perl5Pattern) -> Option<MatchResult>

  /** The compiler flags getCompilerOptions derives from a MATCH_* option mask. */
  function CompilerOptions(f: MatchFlags, m: CompilerMasks, options: Bits): Bits {
    m.defaultMask
    + (if HasFlag(options, {f.caseInsensitive}) then {m.caseInsensitiveMask} else {})
    + (if HasFlag(options, {f.multiline}) then {m.multilineMask} else {})
    + (if HasFlag(options, {f.singleline}) then {m.singlelineMask} else {})
  }

  /** getCompiledPattern: compile the current pattern, wrapping any failure as a BuildException. */
  function CompileOutcome(compile: Compiler, f: MatchFlags, m: CompilerMasks, pattern: Option<string>, options: Bits)
    : Result<Perl5Pattern, BuildException>
  {
    match compile(pattern, CompilerOptions(f, m, options))
    case Success(p) => Success(p)
    case Failure(e) => Failure(BuildException(e))
  }

  /** matches(input, options): whether the current pattern occurs in the input. */
  function MatchOutcome(compile: Compiler, search: Searcher, f: MatchFlags, m: CompilerMasks,
                        pattern: Option<string>, input: string, options: Bits): Result<bool, BuildException>
  {
    match CompileOutcome(compile, f, m, pattern, options)
    case Failure(e) => Failure(e)
    case Success(p) => Success(search(input, p).Some?)
  }

  /** getGroups(input, options): the groups of the match, None (Java's null) when there is none. */
  function GroupsOutcome(compile: Compiler, search: Searcher, f: MatchFlags, m: CompilerMasks,
                         pattern: Option<string>, input: string, options: Bits)
    : Result<Option<seq<Option<string>>>, BuildException>
  {
    match CompileOutcome(compile, f, m, pattern, options)
    case Failure(e) => Failure(e)
    case Success(p) =>
      match search(input, p)
      case None => Success(None)
      case Some(mr) => Success(Some(mr.groups))
  }

  /** True when s occurs in t at some position. */
  predicate IsSubstring(s: string, t: string) {
    exists i :: 0 <= i <= |t| && s <= t[i..]
  }

  /**
   * The library's documented promise about match results: group 0 always
   * takes part and is the text of the input that matched.
   */
  ghost predicate ReportsFullMatch(search: Searcher) {
    forall input, p :: search(input, p).Some? ==>
      var g := search(input, p).value.groups;
      |g| > 0 && g[0].Some? && IsSubstring(g[0].value, input)
  }

  // ---------------------------------------------------------------------
  // Option translation

  /** With none of the three MATCH_* modifiers present, the compiler gets DEFAULT_MASK. */
  lemma CompilerOptionsWithoutFlags(f: MatchFlags, m: CompilerMasks, options: Bits)
    requires !HasFlag(options, {f.caseInsensitive}) && !HasFlag(options, {f.multiline})
    requires !HasFlag(options, {f.singleline})
    ensures CompilerOptions(f, m, options) == m.defaultMask
  {
  }

  /** MATCH_DEFAULT itself selects DEFAULT_MASK. */
  lemma CompilerOptionsOfDefault(f: MatchFlags, m: CompilerMasks)
    ensures CompilerOptions(f, m, MATCH_DEFAULT) == m.defaultMask
  {
  }

  /**
   * Each modifier's compiler bit is set exactly when its MATCH_* flag is
   * present, and outside the three modifier bits the result is DEFAULT_MASK.
   */
  lemma CompilerOptionsTranslation(f: MatchFlags, m: CompilerMasks, options: Bits)
    requires m.Valid()
    ensures HasFlag(CompilerOptions(f, m, options), {m.caseInsensitiveMask}) <==> HasFlag(options, {f.caseInsensitive})
    ensures HasFlag(CompilerOptions(f, m, options), {m.multilineMask}) <==> HasFlag(options, {f.multiline})
    ensures HasFlag(CompilerOptions(f, m, options), {m.singlelineMask}) <==> HasFlag(options, {f.singleline})
    ensures CompilerOptions(f, m, options) - m.ModifierBits() == m.defaultMask
  {
  }

  /**
   * The translation is monotone: every compiler bit selected by some options
   * is still selected when more MATCH_* bits are added, so adding one flag
   * never removes the bit of another.
   */
  lemma CompilerOptionsMonotone(f: MatchFlags, m: CompilerMasks, options: Bits, more: Bits)
    ensures CompilerOptions(f, m, options) <= CompilerOptions(f, m, options + more)
  {
  }

  // ---------------------------------------------------------------------
  // Compilation, matching and groups

  /**
   * Every compile failure surfaces as a BuildException whose cause is the
   * library's own exception; a successful compile is passed through unchanged.
   */
  lemma CompileFailuresAreBuildExceptions(compile: Compiler, f: MatchFlags, m: CompilerMasks,
                                          pattern: Option<string>, options: Bits)
    ensures var r := CompileOutcome(compile, f, m, pattern, options);
      var raw := compile(pattern, CompilerOptions(f, m, options));
      && (r.Failure? <==> raw.Failure?)
      && (r.Failure? ==> r.error == BuildException(raw.error))
      && (r.Success? ==> r.value == raw.value)
  {
  }

  /**
   * getGroups yields null exactly when matches yields false, and throws exactly
   * when matches throws, with the same exception.
   */
  lemma GroupsAbsentExactlyWhenNoMatch(compile: Compiler, search: Searcher, f: MatchFlags, m: CompilerMasks,
                                       pattern: Option<string>, input: string, options: Bits)
    ensures var g := GroupsOutcome(compile, search, f, m, pattern, input, options);
      var r := MatchOutcome(compile, search, f, m, pattern, input, options);
      && (g == Success(None) <==> r == Success(false))
      && (g.Success? && g.value.Some? <==> r == Success(true))
      && (g.Failure? <==> r.Failure?)
      && (g.Failure? ==> g.error == r.error)
  {
  }

  /**
   * A vector getGroups returns has one element per group of the match just
   * found with the freshly compiled pattern, element i being group i.
   */
  lemma GroupsAreThoseOfTheMatch(compile: Compiler, search: Searcher, f: MatchFlags, m: CompilerMasks,
                                 pattern: Option<string>, input: string, options: Bits)
    ensures var g := GroupsOutcome(compile, search, f, m, pattern, input, options);
      var c := CompileOutcome(compile, f, m, pattern, options);
      g.Success? && g.value.Some? ==>
        && c.Success? && search(input, c.value).Some?
        && |g.value.value| == |search(input, c.value).value.groups|
        && forall i :: 0 <= i < |g.value.value| ==> g.value.value[i] == search(input, c.value).value.groups[i]
  {
  }

  /**
   * When the library reports a full-match group 0, every vector getGroups
   * returns is non-empty and starts with a piece of the input.
   */
  lemma GroupZeroIsMatchedText(compile: Compiler, search: Searcher, f: MatchFlags, m: CompilerMasks,
                               pattern: Option<string>, input: string, options: Bits)
    requires ReportsFullMatch(search)
    ensures var g := GroupsOutcome(compile, search, f, m, pattern, input, options);
      g.Success? && g.value.Some? ==>
        |g.value.value| > 0 && g.value.value[0].Some? && IsSubstring(g.value.value[0].value, input)
  {
    var g := GroupsOutcome(compile, search, f, m, pattern, input, options);
    if g.Success? && g.value.Some? {
      var p := CompileOutcome(compile, f, m, pattern, options).value;
      assert search(input, p).Some?;
    }
  }

  /** ORO's Perl5Matcher: it remembers the match found by the last contains call. */
  class Perl5Matcher {
    const search: Searcher
    var lastMatch: Option<MatchResult>

    constructor (search: Searcher)
      ensures this.search == search && lastMatch == None
    {
      this.search := search;
      lastMatch := None;
    }

    /** contains(input, pattern): searches the input and remembers the match. */
    method Contains(input: string, p: Perl5Pattern) returns (found: bool)
      modifies this`lastMatch
      ensures lastMatch == search(input, p)
      ensures found <==> lastMatch.Some?
    {
      lastMatch := search(input, p);
      found := lastMatch.Some?;
    }

    /** getMatch(): the match remembered from the last contains call. */
    method GetMatch() returns (mr: Option<MatchResult>)
      ensures mr == lastMatch
    {
      mr := lastMatch;
    }
  }

  /** JakartaOroMatcher: the pattern string plus the ORO compiler and matcher it drives. */
  class JakartaOroMatcher {
    const flags: MatchFlags
    const masks: CompilerMasks
    /** The Perl5Compiler. */
    const compile: Compiler
    /** The shared Perl5Matcher, which carries the last match from matches into getGroups. */
    const matcher: Perl5Matcher
    var pattern: Option<string>

    constructor (flags: MatchFlags, masks: CompilerMasks, compile: Compiler, search: Searcher)
      ensures this.flags == flags && this.masks == masks && this.compile == compile
      ensures fresh(matcher) && matcher.search == search && matcher.lastMatch == None
      ensures pattern == None
    {
      this.flags := flags;
      this.masks := masks;
      this.compile := compile;
      matcher := new Perl5Matcher(search);
      pattern := None;
    }

    /** setPattern: stores the string as it is; nothing is checked until it is compiled. */
    method SetPattern(pattern: Option<string>)
      modifies this`pattern
      ensures this.pattern == pattern
    {
      this.pattern := pattern;
    }

    /** getPattern: the string last given to setPattern. */
    method GetPattern() returns (p: Option<string>)
      ensures p == pattern
    {
      p := pattern;
    }

    /** getCompilerOptions: the Perl5Compiler flags for a MATCH_* option mask, built bit by bit. */
    method GetCompilerOptions(options: Bits) returns (cOptions: Bits)
      ensures cOptions == CompilerOptions(flags, masks, options)
    {
      cOptions := masks.defaultMask;
      if HasFlag(options, {flags.caseInsensitive}) {
        cOptions := cOptions + {masks.caseInsensitiveMask};
      }
      if HasFlag(options, {flags.multiline}) {
        cOptions := cOptions + {masks.multilineMask};
      }
      if HasFlag(options, {flags.singleline}) {
        cOptions := cOptions + {masks.singlelineMask};
      }
    }

    /** getCompiledPattern: compiles the current pattern afresh; any failure becomes a BuildException. */
    method GetCompiledPattern(options: Bits) returns (r: Result<Perl5Pattern, BuildException>)
      ensures r == CompileOutcome(compile, flags, masks, pattern, options)
      ensures r.Failure? <==> compile(pattern, CompilerOptions(flags, masks, options)).Failure?
      ensures r.Failure? ==> r.error.cause == compile(pattern, CompilerOptions(flags, masks, options)).error
    {
      var cOptions := GetCompilerOptions(options);
      var compiled := compile(pattern, cOptions);
      match compiled {
        case Success(p) => r := Success(p);
        case Failure(e) => r := Failure(BuildException(e));
      }
    }

    /** matches(input, options): compiles the current pattern and asks the matcher whether it occurs. */
    method Matches(input: string, options: Bits) returns (r: Result<bool, BuildException>)
      modifies matcher`lastMatch
      ensures r == MatchOutcome(compile, matcher.search, flags, masks, pattern, input, options)
      ensures r.Success? ==> matcher.lastMatch == matcher.search(input, CompileOutcome(compile, flags, masks, pattern, options).value)
      ensures r.Failure? ==> matcher.lastMatch == old(matcher.lastMatch)
    {
      var p := GetCompiledPattern(options);
      match p {
        case Failure(e) => r := Failure(e);
        case Success(compiled) =>
          var found := matcher.Contains(input, compiled);
          r := Success(found);
      }
    }

    /** matches(argument): the same as matches(argument, MATCH_DEFAULT). */
    method MatchesDefault(argument: string) returns (r: Result<bool, BuildException>)
      modifies matcher`lastMatch
      ensures r == MatchOutcome(compile, matcher.search, flags, masks, pattern, argument, MATCH_DEFAULT)
      ensures r.Success? ==> matcher.lastMatch == matcher.search(argument, CompileOutcome(compile, flags, masks, pattern, MATCH_DEFAULT).value)
      ensures r.Failure? ==> matcher.lastMatch == old(matcher.lastMatch)
    {
      r := Matches(argument, MATCH_DEFAULT);
    }

    /**
     * getGroups(input, options): null when matches is false; otherwise the
     * groups of the match the matcher just found, copied in index order.
     */
    method GetGroups(input: string, options: Bits) returns (r: Result<Option<seq<Option<string>>>, BuildException>)
      modifies matcher`lastMatch
      ensures r == GroupsOutcome(compile, matcher.search, flags, masks, pattern, input, options)
      ensures r.Success? ==> matcher.lastMatch == matcher.search(input, CompileOutcome(compile, flags, masks, pattern, options).value)
      ensures r.Failure? ==> matcher.lastMatch == old(matcher.lastMatch)
    {
      var m := Matches(input, options);
      if m.Failure? {
        return Failure(m.error);
      }
      if !m.value {
        return Success(None);
      }
      var v: seq<Option<string>> := [];
      var mr := matcher.GetMatch();
      var cnt := |mr.value.groups|;
      for i := 0 to cnt
        invariant v == mr.value.groups[..i]
      {
        v := v + [mr.value.groups[i]];
      }
      assert v == mr.value.groups;
      r := Success(Some(v));
    }

    /** getGroups(argument): the same as getGroups(argument, MATCH_DEFAULT). */
    method GetGroupsDefault(argument: string) returns (r: Result<Option<seq<Option<string>>>, BuildException>)
      modifies matcher`lastMatch
      ensures r == GroupsOutcome(compile, matcher.search, flags, masks, pattern, argument, MATCH_DEFAULT)
      ensures r.Success? ==> matcher.lastMatch == matcher.search(argument, CompileOutcome(compile, flags, masks, pattern, MATCH_DEFAULT).value)
      ensures r.Failure? ==> matcher.lastMatch == old(matcher.lastMatch)
    {
      r := GetGroups(argument, MATCH_DEFAULT);
    }
  }

  /**
   * A client of the matcher: after the pattern is replaced, matching reflects
   * only the new pattern, whatever the old one was and whatever it matched.
   */
  method ResetPatternThenMatch(matcher: JakartaOroMatcher, first: string, second: string, input: string, options: Bits)
    returns (before: Result<bool, BuildException>, after: Result<bool, BuildException>)
    modifies matcher, matcher.matcher
    ensures before == MatchOutcome(matcher.compile, matcher.matcher.search, matcher.flags, matcher.masks, Some(first), input, options)
    ensures after == MatchOutcome(matcher.compile, matcher.matcher.search, matcher.flags, matcher.masks, Some(second), input, options)
  {
    matcher.SetPattern(Some(first));
    before := matcher.Matches(input, options);
    matcher.SetPattern(Some(second));
    after := matcher.Matches(input, options);
  }
}
