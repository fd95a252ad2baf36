/** The vocabulary of the generated command line: the options `isolate` is
    given, the order in which the page emits them, and how a list of option
    tokens is spelled out as text. */
module Flags {

  /** Every option the page can emit, listed in the order it emits them. */
  datatype Flag =
    | BoxId | Meta | Stdin | Stdout | Stderr | Chdir | Verbose | Silent
    | Mem | Time | WallTime | ExtraTime | Stack | OpenFiles | Fsize | Quota | Core | Processes
    | Env | FullEnv
    | Dir | NoDefaultDirs
    | Cg | CgMem
    | ShareNet | InheritFds | SpecialFiles
    | Run

  /** Number of options, i.e. one more than the largest rank. */
  const FlagCount: nat := 28

  /** Position of an option in the emission order. */
  function Rank(f: Flag): (r: nat)
    ensures r < FlagCount
  {
    match f
    case BoxId => 0
    case Meta => 1
    case Stdin => 2
    case Stdout => 3
    case Stderr => 4
    case Chdir => 5
    case Verbose => 6
    case Silent => 7
    case Mem => 8
    case Time => 9
    case WallTime => 10
    case ExtraTime => 11
    case Stack => 12
    case OpenFiles => 13
    case Fsize => 14
    case Quota => 15
    case Core => 16
    case Processes => 17
    case Env => 18
    case FullEnv => 19
    case Dir => 20
    case NoDefaultDirs => 21
    case Cg => 22
    case CgMem => 23
    case ShareNet => 24
    case InheritFds => 25
    case SpecialFiles => 26
    case Run => 27
  }

  /** The option at a given position of the emission order; inverse of Rank. */
  function FlagAt(k: nat): (f: Flag)
    requires k < FlagCount
  {
    match k
    case 0 => BoxId
    case 1 => Meta
    case 2 => Stdin
    case 3 => Stdout
    case 4 => Stderr
    case 5 => Chdir
    case 6 => Verbose
    case 7 => Silent
    case 8 => Mem
    case 9 => Time
    case 10 => WallTime
    case 11 => ExtraTime
    case 12 => Stack
    case 13 => OpenFiles
    case 14 => Fsize
    case 15 => Quota
    case 16 => Core
    case 17 => Processes
    case 18 => Env
    case 19 => FullEnv
    case 20 => Dir
    case 21 => NoDefaultDirs
    case 22 => Cg
    case 23 => CgMem
    case 24 => ShareNet
    case 25 => InheritFds
    case 26 => SpecialFiles
    case _ => Run
  }

  /** Rank is one-to-one, so FlagAt undoes it. */
  lemma RankFlagAt(k: nat)
    requires k < FlagCount
    ensures Rank(FlagAt(k)) == k
  {
  }

  lemma FlagAtRank(f: Flag)
    ensures FlagAt(Rank(f)) == f
  {
  }

  /** The option at position `k` is `f` exactly when `f` has rank `k`. */
  lemma FlagAtIff(k: nat, f: Flag)
    requires k < FlagCount
    ensures FlagAt(k) == f <==> Rank(f) == k
  {
    RankFlagAt(k);
    FlagAtRank(f);
  }

  /** True for the options that carry a value (`--name=value`); the others
      are bare switches (`--name`). */
  predicate TakesValue(f: Flag)
  {
    !(f.Verbose? || f.Silent? || f.FullEnv? || f.NoDefaultDirs? || f.Cg? ||
      f.ShareNet? || f.InheritFds? || f.SpecialFiles? || f.Run?)
  }

  /** The text the page writes for an option before its value: the separating
      space, the option name and, for an option with a value, the `=`. */
  function Lead(f: Flag): (s: string)
    ensures |s| > 3 && s[..3] == " --"
  {
    match f
    case BoxId => " --box-id="
    case Meta => " --meta="
    case Stdin => " --stdin="
    case Stdout => " --stdout="
    case Stderr => " --stderr="
    case Chdir => " --chdir="
    case Verbose => " --verbose"
    case Silent => " --silent"
    case Mem => " --mem="
    case Time => " --time="
    case WallTime => " --wall-time="
    case ExtraTime => " --extra-time="
    case Stack => " --stack="
    case OpenFiles => " --open-files="
    case Fsize => " --fsize="
    case Quota => " --quota="
    case Core => " --core="
    case Processes => " --processes="
    case Env => " --env="
    case FullEnv => " --full-env"
    case Dir => " --dir="
    case NoDefaultDirs => " --no-default-dirs"
    case Cg => " --cg"
    case CgMem => " --cg-mem="
    case ShareNet => " --share-net"
    case InheritFds => " --inherit-fds"
    case SpecialFiles => " --special-files"
    case Run => " --run"
  }

  /** One option on the command line: a bare switch, or an option with a value. */
  datatype Token = Switch(flag: Flag) | Valued(flag: Flag, arg: string)

  /** The text of one token, with the space that separates it from what precedes it. */
  function Render(t: Token): string
  {
    match t
    case Switch(f) => Lead(f)
    case Valued(f, a) => Lead(f) + a
  }

  /** The text of a list of tokens, one after the other. */
  function Join(ts: seq<Token>): string
  {
    Concat(ts, Render)
  }

  /** Concatenation of the texts of a list of items. It is generic so that
      facts about concatenation are proved without unfolding any one text. */
  function Concat<T>(xs: seq<T>, text: T -> string): string
  {
    if xs == [] then "" else Concat(xs[..|xs| - 1], text) + text(xs[|xs| - 1])
  }

  lemma {:induction false} ConcatAppend<T>(a: seq<T>, b: seq<T>, text: T -> string)
    ensures Concat(a + b, text) == Concat(a, text) + Concat(b, text)
    decreases |b|
  {
    if b == [] {
      assert a + b == a;
    } else {
      var b', x := b[..|b| - 1], b[|b| - 1];
      assert (a + b)[..|a + b| - 1] == a + b';
      ConcatAppend(a, b', text);
    }
  }

  lemma ConcatOne<T>(x: T, text: T -> string)
    ensures Concat([x], text) == text(x)
  {
    assert [x][..0] == [];
  }

  lemma AppendAssoc<T>(a: seq<T>, b: seq<T>, c: seq<T>)
    ensures a + b + c == a + (b + c)
  {
  }

  lemma AppendNil<T>(a: seq<T>)
    ensures a + [] == a
    ensures [] + a == a
  {
  }

  lemma JoinOne(t: Token)
    ensures Join([t]) == Render(t)
  {
    ConcatOne(t, Render);
  }

  lemma JoinAppend(a: seq<Token>, b: seq<Token>)
    ensures Join(a + b) == Join(a) + Join(b)
  {
    ConcatAppend(a, b, Render);
  }

  /** `w` stands in `s` at position `k`. */
  predicate At(s: string, w: string, k: nat)
  {
    k + |w| <= |s| && s[k..k + |w|] == w
  }

  /** `w` occurs in `s` as a contiguous piece of text. */
  ghost predicate Contains(s: string, w: string)
  {
    exists k: nat :: At(s, w, k)
  }

  /** Text found in the middle stays found when more text surrounds it. */
  lemma ContainsWithin(pre: string, s: string, post: string, w: string)
    requires Contains(s, w)
    ensures Contains(pre + s + post, w)
  {
    var k: nat :| At(s, w, k);
    var all := pre + s + post;
    assert all[|pre| + k..|pre| + k + |w|] == s[k..k + |w|];
    assert At(all, w, |pre| + k);
  }

  /** The text of every token of a list occurs in the text of the list. */
  lemma JoinContains(ts: seq<Token>, i: int)
    requires 0 <= i < |ts|
    ensures Contains(Join(ts), Render(ts[i]))
  {
    assert ts == ts[..i] + [ts[i]] + ts[i + 1..];
    JoinAppend(ts[..i] + [ts[i]], ts[i + 1..]);
    JoinAppend(ts[..i], [ts[i]]);
    JoinOne(ts[i]);
    var pre, w := Join(ts[..i]), Render(ts[i]);
    var s := pre + w + Join(ts[i + 1..]);
    assert s[|pre|..|pre| + |w|] == w;
    assert At(s, w, |pre|);
  }

  /** A list of tokens that ends with a switch is spelled out ending with
      that switch's text. */
  lemma JoinEndsWith(ts: seq<Token>, f: Flag)
    requires |ts| > 0 && ts[|ts| - 1] == Switch(f)
    ensures |Join(ts)| >= |Lead(f)| && Join(ts)[|Join(ts)| - |Lead(f)|..] == Lead(f)
  {
    var init := ts[..|ts| - 1];
    assert ts == init + [Switch(f)];
    JoinAppend(init, [Switch(f)]);
    JoinOne(Switch(f));
  }

  /** A property every token `p` gives has, every gathered token has. */
  lemma {:induction false} GatherAll(p: Flag -> seq<Token>, k: nat, P: Token -> bool)
    requires k <= FlagCount
    requires forall g: Flag, i :: 0 <= i < |p(g)| ==> P(p(g)[i])
    ensures forall i :: 0 <= i < |Gather(p, k)| ==> P(Gather(p, k)[i])
  {
    if k > 0 {
      GatherAll(p, k - 1, P);
      var before, piece := Gather(p, k - 1), p(FlagAt(k - 1));
      forall i | 0 <= i < |before + piece|
        ensures P((before + piece)[i])
      {
        if i >= |before| {
          assert (before + piece)[i] == piece[i - |before|];
        }
      }
    }
  }

  /** Tokens appear in non-decreasing rank: an option never precedes one that is
      emitted earlier in the fixed order. */
  ghost predicate Ordered(ts: seq<Token>)
  {
    forall i, j :: 0 <= i < j < |ts| ==> Rank(ts[i].flag) <= Rank(ts[j].flag)
  }

  /** In an ordered list, a token of an earlier option stands before every
      token of a later option. */
  lemma OrderedPrecedes(ts: seq<Token>)
    requires Ordered(ts)
    ensures forall i, j ::
      (0 <= i < |ts| && 0 <= j < |ts| && Rank(ts[i].flag) < Rank(ts[j].flag)) ==> i < j
  {
  }

  /** Every token of option `f` stands before every token of option `g`. */
  predicate Precedes(ts: seq<Token>, f: Flag, g: Flag)
  {
    forall i, j ::
      (0 <= i < |ts| && 0 <= j < |ts| && ts[i].flag == f && ts[j].flag == g) ==> i < j
  }

  /** In an ordered list, an earlier option precedes a later one. */
  lemma OrderedFlagsPrecede(ts: seq<Token>, f: Flag, g: Flag)
    requires Ordered(ts) && Rank(f) < Rank(g)
    ensures Precedes(ts, f, g)
  {
    OrderedPrecedes(ts);
  }

  /** The tokens of one option, in the order they appear. */
  function Select(ts: seq<Token>, f: Flag): (r: seq<Token>)
    ensures |r| <= |ts|
  {
    if ts == [] then []
    else Select(ts[..|ts| - 1], f) + (if ts[|ts| - 1].flag == f then [ts[|ts| - 1]] else [])
  }

  lemma {:induction false} SelectAppend(a: seq<Token>, b: seq<Token>, f: Flag)
    ensures Select(a + b, f) == Select(a, f) + Select(b, f)
    decreases |b|
  {
    if b == [] {
      assert a + b == a;
    } else {
      var b' := b[..|b| - 1];
      assert (a + b)[..|a + b| - 1] == a + b';
      SelectAppend(a, b', f);
    }
  }

  /** The tokens of the first `k` options of the emission order, each option
      contributing the list `p` gives for it. */
  function Gather(p: Flag -> seq<Token>, k: nat): seq<Token>
    requires k <= FlagCount
  {
    if k == 0 then [] else Gather(p, k - 1) + p(FlagAt(k - 1))
  }

  /** A list made of tokens of lower rank followed by one switch `f` ends
      with `f`, and everything before it has lower rank. */
  lemma EndsWithSwitch(ts: seq<Token>, before: seq<Token>, f: Flag)
    requires ts == before + [Switch(f)]
    requires forall i :: 0 <= i < |before| ==> Rank(before[i].flag) < Rank(f)
    ensures |ts| > 0 && ts[|ts| - 1] == Switch(f)
    ensures forall i :: 0 <= i < |ts| - 1 ==> Rank(ts[i].flag) < Rank(f)
  {
    forall i | 0 <= i < |ts| - 1
      ensures Rank(ts[i].flag) < Rank(f)
    {
      assert ts[i] == before[i];
    }
  }

  /** When the last option contributes exactly its switch, the gathered
      tokens end with that switch and every earlier token has lower rank. */
  lemma GatherEndsWithLast(p: Flag -> seq<Token>, f: Flag)
    requires Tagged(p) && FlagAt(FlagCount - 1) == f && p(f) == [Switch(f)]
    ensures |Gather(p, FlagCount)| > 0 && Gather(p, FlagCount)[|Gather(p, FlagCount)| - 1] == Switch(f)
    ensures forall i :: 0 <= i < |Gather(p, FlagCount)| - 1 ==> Rank(Gather(p, FlagCount)[i].flag) < Rank(f)
  {
    GatherOrdered(p, FlagCount - 1);
    RankFlagAt(FlagCount - 1);
    GatherLast(p, FlagCount, f, [Switch(f)]);
    EndsWithSwitch(Gather(p, FlagCount), Gather(p, FlagCount - 1), f);
  }

  /** The last step of gathering, for an option whose tokens are known. */
  lemma GatherLast(p: Flag -> seq<Token>, k: nat, f: Flag, piece: seq<Token>)
    requires 0 < k <= FlagCount && FlagAt(k - 1) == f && p(f) == piece
    ensures Gather(p, k) == Gather(p, k - 1) + piece
  {
  }

  /** Every token `p` gives for an option carries that option. */
  ghost predicate Tagged(p: Flag -> seq<Token>)
  {
    forall g: Flag, i :: 0 <= i < |p(g)| ==> p(g)[i].flag == g
  }

  /** Selecting one option from tokens that all carry the same option keeps
      all of them or none. */
  lemma {:induction false} SelectUniform(ts: seq<Token>, g: Flag, f: Flag)
    requires forall i :: 0 <= i < |ts| ==> ts[i].flag == g
    ensures Select(ts, f) == if f == g then ts else []
    decreases |ts|
  {
    if ts != [] {
      var init := ts[..|ts| - 1];
      SelectUniform(init, g, f);
      assert init + [ts[|ts| - 1]] == ts;
    }
  }

  /** In gathered tokens, the tokens of option `f` are exactly those `p` gives
      for it when `f` is among the first `k` options, and none otherwise. */
  lemma {:induction false} SelectGather(p: Flag -> seq<Token>, k: nat, f: Flag)
    requires k <= FlagCount && Tagged(p)
    ensures Select(Gather(p, k), f) == if Rank(f) < k then p(f) else []
  {
    if k > 0 {
      SelectGather(p, k - 1, f);
      FlagAtIff(k - 1, f);
      SelectGatherStep(p, k, f, Rank(f));
    }
  }

  /** One step of SelectGather: adding the option at position `k - 1`. */
  lemma SelectGatherStep(p: Flag -> seq<Token>, k: nat, f: Flag, r: nat)
    requires 0 < k <= FlagCount && Tagged(p) && r == Rank(f)
    requires FlagAt(k - 1) == f <==> r == k - 1
    requires Select(Gather(p, k - 1), f) == if r < k - 1 then p(f) else []
    ensures Select(Gather(p, k), f) == if r < k then p(f) else []
  {
    var g := FlagAt(k - 1);
    SelectAppend(Gather(p, k - 1), p(g), f);
    SelectUniform(p(g), g, f);
    AppendNil(p(f));
    AppendNil<Token>([]);
  }

  /** Gathered tokens come in rank order, all below `k`. */
  lemma {:induction false} GatherOrdered(p: Flag -> seq<Token>, k: nat)
    requires k <= FlagCount && Tagged(p)
    ensures forall i :: 0 <= i < |Gather(p, k)| ==> Rank(Gather(p, k)[i].flag) < k
    ensures Ordered(Gather(p, k))
  {
    if k > 0 {
      var g := FlagAt(k - 1);
      var before, piece := Gather(p, k - 1), p(g);
      GatherOrdered(p, k - 1);
      RankFlagAt(k - 1);
      var all := before + piece;
      forall i | 0 <= i < |all|
        ensures Rank(all[i].flag) < k
      {
        if i >= |before| {
          assert all[i] == piece[i - |before|];
        }
      }
      forall i, j | 0 <= i < j < |all|
        ensures Rank(all[i].flag) <= Rank(all[j].flag)
      {
        if j < |before| {
          assert all[i] == before[i] && all[j] == before[j];
        } else if i < |before| {
          assert all[i] == before[i] && all[j] == piece[j - |before|];
        } else {
          assert all[i] == piece[i - |before|] && all[j] == piece[j - |before|];
        }
      }
    }
  }
}
