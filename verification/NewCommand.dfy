/** The arguments of `/new`, and the suggestion that is meant to be sent again. */
module NewCommand {
  import opened Wrappers
  import opened Text

  datatype Fields = Fields(
    model: string, effort: string, mode: Option<string>,
    planModel: Option<string>, planEffort: Option<string>, cwd: Option<string>, prompt: Option<string>)

  const BAR: char := '|'
  const PLAN := "planmode"
  const NO_PLAN := "noplan"

  // --------------------------------------------------------------- strings

  predicate BarFree(s: string) { BAR !in s }

  /** `s.split("|", limit)`. */
  function Split(s: string, limit: nat): (r: seq<string>)
    ensures 1 <= |r| <= limit + 1
    ensures forall i :: 0 <= i < |r| - 1 ==> BarFree(r[i])
    ensures |r| <= limit ==> BarFree(r[|r| - 1])
    decreases limit
  {
    if limit == 0 || BarFree(s) then [s]
    else
      var i := Index(s);
      [s[..i]] + Split(s[i + 1..], limit - 1)
  }

  /** Where the first bar is. */
  function Index(s: string): (i: nat)
    requires BAR in s
    ensures i < |s| && s[i] == BAR && BarFree(s[..i])
  {
    if s[0] == BAR then 0 else Index(s[1..]) + 1
  }

  function Fold(s: string): string {
    if s == "" then "" else [if 'A' <= s[0] <= 'Z' then s[0] + 32 as char else s[0]] + Fold(s[1..])
  }

  function Present(s: string): Option<string> { if Strip(s) != "" then Some(Strip(s)) else None }

  function Join(fields: seq<string>): string {
    if fields == [] then "" else if |fields| == 1 then fields[0] else fields[0] + " | " + Join(fields[1..])
  }

  // ---------------------------------------------------------------- parser

  function Nth(fields: seq<string>, i: nat): Option<string> { if i < |fields| then Present(fields[i]) else None }

  function ParseTail(model: string, effort: string, mode: string, tail: string): Option<Fields> {
    if mode == PLAN then
      var fields := Split(tail, 3);
      if Nth(fields, 0) == None || Nth(fields, 1) == None then None
      else Some(Fields(model, effort, Some(mode), Nth(fields, 0), Nth(fields, 1), Nth(fields, 2), Nth(fields, 3)))
    else if mode == NO_PLAN then
      var fields := Split(tail, 1);
      Some(Fields(model, effort, Some(mode), None, None, Nth(fields, 0), Nth(fields, 1)))
    else Some(Fields(model, effort, Some(mode), None, None, None, None))
  }

  /** `_parse_new_arguments`. */
  function Parse(value: string): Option<Fields> {
    var leading := Split(value, 2);
    if |leading| < 2 || Strip(leading[0]) == "" || Strip(leading[1]) == "" then None
    else if |leading| == 2 || Strip(leading[2]) == "" then
      Some(Fields(Strip(leading[0]), Strip(leading[1]), None, None, None, None, None))
    else
      var rest := Split(leading[2], 1);
      ParseTail(Strip(leading[0]), Strip(leading[1]), Fold(Strip(rest[0])), if |rest| == 2 then rest[1] else "")
  }

  // --------------------------------------------------------------- printer

  function Given(o: Option<string>): seq<string> { if o.Some? && o.value != "" then [o.value] else [] }

  function FieldsOf(f: Fields): seq<string> {
    [f.model, f.effort]
    + (if f.mode == None then []
       else [f.mode.value]
            + (if f.mode == Some(PLAN) then [f.planModel.GetOr(""), f.planEffort.GetOr("")] else [])
            + Given(f.cwd) + Given(f.prompt))
  }

  function Print(f: Fields): string { Join(FieldsOf(f)) }

  // ----------------------------------------------------------- well-formed

  /** One field of a suggestion. */
  predicate Clean(s: string) { s != "" && Trimmed(s) && BarFree(s) }

  predicate CleanIfAny(o: Option<string>) { o.Some? ==> Clean(o.value) }

  predicate KnownOrNone(mode: Option<string>) { mode == None || mode == Some(PLAN) || mode == Some(NO_PLAN) }

  /** Fields as the printer gets them: clean, a known mode, plan fields with
      `planmode` only; a prompt may hold bars. */
  predicate WellFormed(f: Fields) {
    && Clean(f.model) && Clean(f.effort)
    && KnownOrNone(f.mode)
    && (f.planModel.Some? <==> f.mode == Some(PLAN)) && (f.planEffort.Some? <==> f.mode == Some(PLAN))
    && CleanIfAny(f.planModel) && CleanIfAny(f.planEffort) && CleanIfAny(f.cwd)
    && (f.prompt.Some? ==> f.prompt.value != "" && Trimmed(f.prompt.value))
  }

  /** What survives being printed: a prompt needs its directory before it, and
      without a mode there is neither. */
  predicate Resendable(f: Fields) {
    (f.prompt.Some? ==> f.cwd.Some?) && (f.mode == None ==> f.cwd == None && f.prompt == None)
  }

  // ---------------------------------------------------------------- lemmas

  /** Padding with blanks does not change what `strip` finds. */
  lemma StripPadded(s: string)
    requires s != "" && Trimmed(s)
    ensures Strip(s) == s && Strip(" " + s) == s && Strip(s + " ") == s && Strip(" " + s + " ") == s
  {
    assert IsSpace(' ');
    assert (" " + s)[1..] == s && (" " + s + " ")[1..] == s + " ";
    assert (s + " ")[..|s|] == s && (s + " ")[|s|] == ' ' && (s + " ")[0] == s[0];
  }

  lemma {:induction false} IndexAt(a: string, b: string)
    requires BarFree(a)
    ensures BAR in a + "|" + b && Index(a + "|" + b) == |a|
  {
    var s := a + "|" + b;
    assert s[|a|] == BAR;
    if a != "" {
      assert s[0] == a[0] && s[1..] == a[1..] + "|" + b;
      IndexAt(a[1..], b);
    }
  }

  lemma SplitAtBar(a: string, b: string, limit: nat)
    requires BarFree(a) && limit > 0
    ensures Split(a + "|" + b, limit) == [a] + Split(b, limit - 1)
  {
    var s := a + "|" + b;
    IndexAt(a, b);
    assert s[..|a|] == a && s[|a| + 1..] == b;
  }

  lemma SplitWhole(s: string, limit: nat)
    requires limit == 0 || BarFree(s)
    ensures Split(s, limit) == [s]
  {
  }

  lemma {:induction false} FoldLower(s: string)
    requires forall i :: 0 <= i < |s| ==> !('A' <= s[i] <= 'Z')
    ensures Fold(s) == s
  {
    if s != "" { FoldLower(s[1..]); }
  }

  lemma KnownMode(mode: string)
    requires mode == PLAN || mode == NO_PLAN
    ensures mode != "" && Trimmed(mode) && BarFree(mode) && Fold(mode) == mode
  {
    hide Fold;
    FoldLower(mode);
  }

  /** The text after a bar, from these fields on. */
  function After(fields: seq<string>): string { " " + Join(fields) }

  lemma SplitFields(fields: seq<string>, limit: nat)
    requires |fields| > 1 && BarFree(fields[0]) && limit > 0
    ensures Split(After(fields), limit) == [" " + fields[0] + " "] + Split(After(fields[1..]), limit - 1)
    ensures Split(Join(fields), limit) == [fields[0] + " "] + Split(After(fields[1..]), limit - 1)
  {
    var rest := After(fields[1..]);
    assert " | " == " " + "|" + " ";
    assert Join(fields) == (fields[0] + " ") + "|" + rest;
    assert After(fields) == (" " + fields[0] + " ") + "|" + rest;
    SplitAtBar(fields[0] + " ", rest, limit);
    SplitAtBar(" " + fields[0] + " ", rest, limit);
  }

  /** The last field: either nothing more is split off or it holds no bar. */
  lemma SplitLast(field: string, limit: nat)
    requires limit == 0 || BarFree(field)
    ensures Split(After([field]), limit) == [" " + field]
  {
    SplitWhole(" " + field, limit);
  }

  function RestOf(f: Fields): seq<string> {
    (if f.mode == Some(PLAN) then [f.planModel.GetOr(""), f.planEffort.GetOr("")] else []) + Given(f.cwd) + Given(f.prompt)
  }

  lemma PrintShape(f: Fields)
    requires f.mode.Some?
    ensures Print(f) == Join([f.model, f.effort, f.mode.value] + RestOf(f))
  {
    assert FieldsOf(f) == [f.model, f.effort, f.mode.value] + RestOf(f);
  }

  lemma ThreeParts(x: string, y: string, rest: seq<string>)
    requires BarFree(x) && BarFree(y) && rest != []
    ensures Split(Join([x, y] + rest), 2) == [x + " ", " " + y + " ", After(rest)]
  {
    var all := [x, y] + rest;
    assert all[1..] == [y] + rest && ([y] + rest)[1..] == rest;
    SplitFields(all, 2);
    SplitFields([y] + rest, 1);
    SplitWhole(After(rest), 0);
  }

  lemma ModeAndTail(mode: string, rest: seq<string>)
    requires BarFree(mode)
    ensures Split(After([mode] + rest), 1) == if rest == [] then [" " + mode] else [" " + mode + " ", After(rest)]
  {
    if rest == [] {
      assert [mode] + rest == [mode];
      SplitLast(mode, 1);
    } else {
      assert ([mode] + rest)[1..] == rest;
      SplitFields([mode] + rest, 1);
      SplitWhole(After(rest), 0);
    }
  }

  lemma ParsesAs(value: string, leading: seq<string>, rest: seq<string>)
    requires Split(value, 2) == leading && |leading| == 3 && Split(leading[2], 1) == rest
    requires Strip(leading[0]) != "" && Strip(leading[1]) != "" && Strip(leading[2]) != ""
    ensures Parse(value) == ParseTail(Strip(leading[0]), Strip(leading[1]), Fold(Strip(rest[0])), if |rest| == 2 then rest[1] else "")
  {
    hide Split, Strip, Fold, ParseTail;
  }

  /** The head of a printed suggestion reads back; what is left is its tail. */
  lemma HeadReadsBack(f: Fields)
    requires WellFormed(f) && f.mode.Some?
    ensures Parse(Print(f)) == ParseTail(f.model, f.effort, f.mode.value, if RestOf(f) == [] then "" else After(RestOf(f)))
  {
    var rest := RestOf(f);
    PrintShape(f);
    assert [f.model, f.effort, f.mode.value] + rest == [f.model, f.effort] + ([f.mode.value] + rest);
    assert f.mode.value == PLAN || f.mode.value == NO_PLAN;
    CleanIs(f.model);
    CleanIs(f.effort);
    hide *;
    KnownMode(f.mode.value);
    JoinedReadsBack(f.model, f.effort, f.mode.value, rest);
  }

  lemma CleanIs(s: string)
    requires Clean(s)
    ensures s != "" && Trimmed(s) && BarFree(s)
  {
  }

  lemma JoinedReadsBack(model: string, effort: string, mode: string, rest: seq<string>)
    requires model != "" && Trimmed(model) && BarFree(model) && effort != "" && Trimmed(effort) && BarFree(effort)
    requires mode != "" && Trimmed(mode) && BarFree(mode) && Fold(mode) == mode
    ensures
      Parse(Join([model, effort] + ([mode] + rest))) == ParseTail(model, effort, mode, if rest == [] then "" else After(rest))
  {
    hide *;
    StripPadded(model);
    StripPadded(effort);
    StripPadded(mode);
    ThreeParts(model, effort, [mode] + rest);
    ModeAndTail(mode, rest);
    ThirdIsPresent(mode, rest);
    ParsesAs(Join([model, effort] + ([mode] + rest)), [model + " ", " " + effort + " ", After([mode] + rest)],
             if rest == [] then [" " + mode] else [" " + mode + " ", After(rest)]);
  }

  /** White space alone is all that `strip` erases. */
  lemma ErasedIsBlank(s: string)
    ensures Strip(s) == "" ==> Blank(s)
  {
    StripFound(s);
    var a, b :| Blank(a) && Blank(b) && s == a + Strip(s) + b;
    if Strip(s) == "" { assert s == a + b; }
  }

  lemma ThirdIsPresent(mode: string, rest: seq<string>)
    requires mode != "" && Trimmed(mode)
    ensures Strip(After([mode] + rest)) != ""
  {
    var third := After([mode] + rest);
    assert third[1] == mode[0];
    ErasedIsBlank(third);
  }

  lemma NoModeReadsBack(f: Fields)
    requires WellFormed(f) && f.mode == None
    ensures Parse(Print(f)) == Some(Fields(f.model, f.effort, None, None, None, None, None))
  {
    var all := [f.model, f.effort];
    assert FieldsOf(f) == all && all[1..] == [f.effort];
    StripPadded(f.model);
    StripPadded(f.effort);
    SplitFields(all, 2);
    SplitLast(f.effort, 1);
  }

  // ---------------------------------------------------------------- tails

  lemma NthPadded(x: string)
    requires x != "" && Trimmed(x)
    ensures Present(" " + x) == Some(x) && Present(" " + x + " ") == Some(x)
  {
    StripPadded(x);
  }

  /** A prompt in the place of the directory: its first part is taken for one, or
      the part after its first bar for the prompt. */
  lemma StrayPrompt(p: string, limit: nat)
    requires p != "" && Trimmed(p) && limit > 0
    ensures
      var fields := Split(After([p]), limit);
      if BarFree(p) then Nth(fields, 0) == Some(p) else Nth(fields, 1) != Some(p)
  {
    if BarFree(p) {
      SplitLast(p, limit);
      NthPadded(p);
    } else {
      var i := Index(p);
      assert After([p]) == (" " + p[..i]) + "|" + p[i + 1..];
      assert |p[i + 1..]| < |p|;
      hide Split, Strip, After, Index, Trimmed;
      SplitAtBar(" " + p[..i], p[i + 1..], limit);
      SplitShorter(p[i + 1..], limit - 1);
      StripShorter(Split(p[i + 1..], limit - 1)[0]);
    }
  }

  lemma SplitShorter(s: string, limit: nat)
    ensures |Split(s, limit)[0]| <= |s|
  {
  }

  lemma StripShorter(s: string)
    ensures |Strip(s)| <= |s|
  {
    StripFound(s);
    var a, b :| Blank(a) && Blank(b) && s == a + Strip(s) + b;
  }

  /** Directory and prompt read back, unless the prompt has taken the place of
      the directory. */
  lemma TailReadsBack(cwd: Option<string>, prompt: Option<string>)
    requires CleanIfAny(cwd) && (prompt.Some? ==> prompt.value != "" && Trimmed(prompt.value))
    ensures
      var tail := Given(cwd) + Given(prompt);
      var fields := Split(if tail == [] then "" else After(tail), 1);
      Nth(fields, 0) == cwd && Nth(fields, 1) == prompt <==> (prompt.Some? ==> cwd.Some?)
  {
    var tail := Given(cwd) + Given(prompt);
    if cwd.Some? {
      NthPadded(cwd.value);
      if prompt.Some? {
        NthPadded(prompt.value);
        assert tail == [cwd.value, prompt.value];
        SplitFields(tail, 1);
        SplitLast(prompt.value, 0);
      } else {
        assert tail == [cwd.value];
        SplitLast(cwd.value, 1);
      }
    } else if prompt.Some? {
      assert tail == [prompt.value];
      StrayPrompt(prompt.value, 1);
    } else {
      SplitWhole("", 1);
    }
    hide Split, Strip, Join;
  }

  lemma NoPlanReadsBack(f: Fields)
    requires WellFormed(f) && f.mode == Some(NO_PLAN)
    ensures
      var t := ParseTail(f.model, f.effort, NO_PLAN, if RestOf(f) == [] then "" else After(RestOf(f)));
      t == Some(f) <==> (f.prompt.Some? ==> f.cwd.Some?)
  {
    assert RestOf(f) == Given(f.cwd) + Given(f.prompt);
    TailReadsBack(f.cwd, f.prompt);
    hide Split, Strip, Join, Given, Nth;
  }

  /** The plan fields come first. */
  lemma PlanSplit(pm: string, pe: string, tail: seq<string>)
    requires BarFree(pm) && BarFree(pe)
    ensures Split(After([pm, pe] + tail), 3) ==
            if tail == [] then [" " + pm + " ", " " + pe] else [" " + pm + " ", " " + pe + " "] + Split(After(tail), 1)
  {
    hide *;
    Regroup(pm, pe, tail);
    SplitCons(pm, [pe] + tail, 3);
    if tail == [] {
      assert [pe] + tail == [pe];
      SplitLast(pe, 2);
      assert [" " + pm + " "] + [" " + pe] == [" " + pm + " ", " " + pe];
    } else {
      SplitCons(pe, tail, 2);
      Regroup(" " + pm + " ", " " + pe + " ", Split(After(tail), 1));
    }
  }

  lemma SplitCons(x: string, rest: seq<string>, limit: nat)
    requires rest != [] && BarFree(x) && limit > 0
    ensures Split(After([x] + rest), limit) == [" " + x + " "] + Split(After(rest), limit - 1)
  {
    assert ([x] + rest)[1..] == rest;
    hide *;
    SplitFields([x] + rest, limit);
  }

  lemma Regroup<T>(a: T, b: T, rest: seq<T>)
    ensures [a] + ([b] + rest) == [a, b] + rest
  {
  }

  /** The third and fourth of these fields are the first and second of the rest. */
  lemma NthOfRest(a: string, b: string, rest: seq<string>)
    ensures Nth([a, b] + rest, 0) == Present(a) && Nth([a, b] + rest, 1) == Present(b)
    ensures Nth([a, b] + rest, 2) == Nth(rest, 0) && Nth([a, b] + rest, 3) == Nth(rest, 1)
  {
    hide Present;
  }

  lemma NothingPresent()
    ensures Split("", 1) == [""] && Nth([""], 0) == None && Nth([""], 1) == None && Nth([], 0) == None && Nth([], 1) == None
  {
    SplitWhole("", 1);
  }

  lemma PlanFields(pm: string, pe: string, tail: seq<string>)
    requires Clean(pm) && Clean(pe)
    ensures
      var fields := Split(After([pm, pe] + tail), 3);
      var rest := Split(if tail == [] then "" else After(tail), 1);
      && Nth(fields, 0) == Some(pm) && Nth(fields, 1) == Some(pe)
      && Nth(fields, 2) == Nth(rest, 0) && Nth(fields, 3) == Nth(rest, 1)
  {
    CleanIs(pm);
    CleanIs(pe);
    hide *;
    NthPadded(pm);
    NthPadded(pe);
    PlanSplit(pm, pe, tail);
    NothingPresent();
    if tail == [] {
      assert [" " + pm + " ", " " + pe] == [" " + pm + " ", " " + pe] + [];
      NthOfRest(" " + pm + " ", " " + pe, []);
    } else {
      NthOfRest(" " + pm + " ", " " + pe + " ", Split(After(tail), 1));
    }
  }

  lemma PlanReadsBack(f: Fields)
    requires WellFormed(f) && f.mode == Some(PLAN)
    ensures
      var t := ParseTail(f.model, f.effort, PLAN, After(RestOf(f)));
      RestOf(f) != [] && (t == Some(f) <==> (f.prompt.Some? ==> f.cwd.Some?))
  {
    var tail := Given(f.cwd) + Given(f.prompt);
    assert RestOf(f) == [f.planModel.value, f.planEffort.value] + tail;
    PlanFields(f.planModel.value, f.planEffort.value, tail);
    TailReadsBack(f.cwd, f.prompt);
    hide Split, Strip, Join, Given, Nth;
  }

  // -------------------------------------------------------------- promises

  /** Sending a printed suggestion again gives exactly the fields it was printed
      from, if and only if a prompt comes with a directory and neither comes
      without a mode. */
  lemma RoundTrip(f: Fields)
    requires WellFormed(f)
    ensures Parse(Print(f)) == Some(f) <==> Resendable(f)
  {
    if f.mode == None {
      NoModeReadsBack(f);
    } else {
      HeadReadsBack(f);
      if f.mode == Some(PLAN) { PlanReadsBack(f); } else { NoPlanReadsBack(f); }
    }
    hide Parse, ParseTail, Print, RestOf;
  }

  lemma StripClean(s: string)
    ensures Present(s).Some? ==> Present(s).value != "" && Trimmed(Present(s).value)
    ensures BarFree(s) && Present(s).Some? ==> Clean(Present(s).value)
  {
    StripFound(s);
    var a, b :| Blank(a) && Blank(b) && s == a + Strip(s) + b;
    assert forall c :: c in Strip(s) ==> c in s;
  }

  lemma NthClean(fields: seq<string>, i: nat)
    ensures Nth(fields, i).Some? ==> Nth(fields, i).value != "" && Trimmed(Nth(fields, i).value)
    ensures i < |fields| && BarFree(fields[i]) ==> CleanIfAny(Nth(fields, i))
  {
    if i < |fields| { StripClean(fields[i]); }
  }

  lemma {:induction false} FoldFound(s: string)
    ensures |Fold(s)| == |s|
    ensures forall i :: 0 <= i < |s| ==> Fold(s)[i] == if 'A' <= s[i] <= 'Z' then s[i] + 32 as char else s[i]
  {
    if s != "" { FoldFound(s[1..]); }
  }

  /** Folding keeps what is clean about a string, and folding twice is folding once. */
  lemma FoldKeeps(s: string)
    requires Trimmed(s) && BarFree(s)
    ensures Trimmed(Fold(s)) && BarFree(Fold(s)) && Fold(Fold(s)) == Fold(s)
  {
    FoldFound(s);
    hide Fold;
    FoldLower(Fold(s));
  }

  lemma TailMode(model: string, effort: string, mode: string, tail: string)
    ensures
      var r := ParseTail(model, effort, mode, tail);
      && (r.Some? ==> r.value.mode == Some(mode) && r.value.model == model && r.value.effort == effort)
      && (mode != PLAN && mode != NO_PLAN ==> r == Some(Fields(model, effort, Some(mode), None, None, None, None)))
  {
    hide Nth, Split;
  }

  /** What the parser may return: everything trimmed, the mode folded, no bars
      except in the prompt, and nothing but the mode under one that is unknown. */
  predicate AsParsed(f: Fields) {
    && Clean(f.model) && Clean(f.effort)
    && (f.mode.Some? ==> Trimmed(f.mode.value) && BarFree(f.mode.value) && Fold(f.mode.value) == f.mode.value)
    && (KnownOrNone(f.mode) ==> WellFormed(f))
    && (!KnownOrNone(f.mode) || f.mode == None ==> f == Fields(f.model, f.effort, f.mode, None, None, None, None))
  }

  lemma TailIsAsParsed(model: string, effort: string, mode: string, tail: string)
    requires Clean(model) && Clean(effort) && Trimmed(mode) && BarFree(mode) && Fold(mode) == mode
    ensures var r := ParseTail(model, effort, mode, tail); r.Some? ==> AsParsed(r.value)
  {
    TailMode(model, effort, mode, tail);
    TailIsWellFormed(model, effort, mode, tail);
    hide ParseTail, Trimmed, Fold, WellFormed, Clean;
  }

  /** What three or more parts are parsed to. */
  lemma ThirdIsAsParsed(model: string, effort: string, third: string)
    requires Clean(model) && Clean(effort)
    ensures
      var rest := Split(third, 1);
      var r := ParseTail(model, effort, Fold(Strip(rest[0])), if |rest| == 2 then rest[1] else "");
      r.Some? ==> AsParsed(r.value)
  {
    var rest := Split(third, 1);
    hide *;
    StripKeepsBarFree(rest[0]);
    FoldKeeps(Strip(rest[0]));
    TailIsAsParsed(model, effort, Fold(Strip(rest[0])), if |rest| == 2 then rest[1] else "");
  }

  lemma HeadIsAsParsed(model: string, effort: string)
    requires Clean(model) && Clean(effort)
    ensures AsParsed(Fields(model, effort, None, None, None, None, None))
  {
  }

  /** Whatever is parsed, under whatever mode. */
  lemma ParsedIsWellFormed(value: string)
    requires Parse(value).Some?
    ensures AsParsed(Parse(value).value)
  {
    var leading := Split(value, 2);
    StripClean(leading[0]);
    StripClean(leading[1]);
    hide Split, Strip, Fold, ParseTail, AsParsed, Clean;
    HeadIsAsParsed(Strip(leading[0]), Strip(leading[1]));
    if |leading| == 3 { ThirdIsAsParsed(Strip(leading[0]), Strip(leading[1]), leading[2]); }
  }

  lemma StripKeepsBarFree(s: string)
    requires BarFree(s)
    ensures Trimmed(Strip(s)) && BarFree(Strip(s))
  {
    StripFound(s);
    var a, b :| Blank(a) && Blank(b) && s == a + Strip(s) + b;
    assert forall c :: c in Strip(s) ==> c in s;
  }

  lemma TailIsWellFormed(model: string, effort: string, mode: string, tail: string)
    requires Clean(model) && Clean(effort)
    ensures
      var r := ParseTail(model, effort, mode, tail);
      (mode == PLAN || mode == NO_PLAN) && r.Some? ==> WellFormed(r.value)
  {
    var plan, plain := Split(tail, 3), Split(tail, 1);
    NthClean(plan, 0);
    NthClean(plan, 1);
    NthClean(plan, 2);
    NthClean(plan, 3);
    NthClean(plain, 0);
    NthClean(plain, 1);
    hide Split, Nth;
  }

  /** A mode of its own reads back, and an empty one is no mode at all. */
  lemma BareModeReadsBack(model: string, effort: string, mode: string)
    requires Clean(model) && Clean(effort) && Trimmed(mode) && BarFree(mode) && Fold(mode) == mode
    requires mode != PLAN && mode != NO_PLAN
    ensures Parse(Join([model, effort, mode])) ==
            Some(Fields(model, effort, if mode == "" then None else Some(mode), None, None, None, None))
  {
    CleanIs(model);
    CleanIs(effort);
    TailMode(model, effort, mode, "");
    assert [model, effort] + ([mode] + []) == [model, effort, mode];
    if mode != "" {
      hide *;
      JoinedReadsBack(model, effort, mode, []);
    } else {
      EmptyModeReadsBack(model, effort);
    }
  }

  lemma EmptyModeReadsBack(model: string, effort: string)
    requires Clean(model) && Clean(effort)
    ensures Parse(Join([model, effort, ""])) == Some(Fields(model, effort, None, None, None, None, None))
  {
    assert [model, effort] + [""] == [model, effort, ""];
    assert After([""]) == " ";
    StripFound(" ");
    StripPadded(model);
    StripPadded(effort);
    hide Split, Join, Strip, After, ParseTail, Fold, Trimmed;
    ThreeParts(model, effort, [""]);
    BlankIsErased();
  }

  lemma BlankIsErased()
    ensures Strip(" ") == ""
  {
    assert StripLeft(" ") == StripLeft(" "[1..]) && " "[1..] == "";
  }

  /** Printing what was parsed and parsing it again changes nothing, exactly when
      the fields can be sent again and the mode, if there is one, is not empty. */
  lemma ReprintedIsStable(value: string)
    requires Parse(value).Some?
    ensures
      var f := Parse(value).value;
      Parse(Print(f)) == Some(f) <==> Resendable(f) && f.mode != Some("")
  {
    ParsedIsWellFormed(value);
    var f := Parse(value).value;
    if KnownOrNone(f.mode) {
      hide Parse, Print;
      RoundTrip(f);
    } else {
      assert FieldsOf(f) == [f.model, f.effort, f.mode.value];
      BareModeReadsBack(f.model, f.effort, f.mode.value);
      hide Parse, Join, Fold;
    }
  }

  // --------------------------------------------------------------- building

  /** The field-joining part of `_send_new_suggestion`. */
  method BuildSuggestion(f: Fields) returns (suggestion: string)
    ensures suggestion == Print(f)
  {
    var fields := [f.model, f.effort];
    if f.mode.Some? {
      fields := fields + [f.mode.value];
      if f.mode.value == PLAN { fields := fields + [f.planModel.GetOr(""), f.planEffort.GetOr("")]; }
      if f.cwd.Some? && f.cwd.value != "" { fields := fields + [f.cwd.value]; }
      if f.prompt.Some? && f.prompt.value != "" { fields := fields + [f.prompt.value]; }
    }
    assert fields == FieldsOf(f);
    suggestion := fields[|fields| - 1];
    var i := |fields| - 1;
    assert fields[i..] == [fields[i]];
    while i > 0
      invariant 0 <= i < |fields| && suggestion == Join(fields[i..])
    {
      i := i - 1;
      assert fields[i..][0] == fields[i] && fields[i..][1..] == fields[i + 1..];
      suggestion := fields[i] + " | " + suggestion;
    }
    assert fields[0..] == fields;
  }
}
