/** The lexical_bool library: a bool that is parsed from a word, where the
    words that mean `true` and `false` are two lists that each execution
    context fixes at most once, explicitly or by falling back to the
    defaults on its first parse. */
module Lexical {
  import Ascii

  datatype Option<T> = None | Some(value: T)

  datatype Result<T, E> = Ok(value: T) | Err(error: E)

  /** The words that mean `true` when no other list was installed. */
  const TruthyValues: seq<string> := ["true", "t", "1", "yes"]

  /** The words that mean `false` when no other list was installed. */
  const FalseyValues: seq<string> := ["false", "f", "0", "no"]

  /** The parsed value: a wrapper around a bool. */
  datatype LexicalBool = LexicalBool(value: bool) {

    /** `*lb`: the wrapped bool. */
    function Deref(): (r: bool)
      ensures LexicalBool(r) == this
    {
      value
    }

    /** `lb == b` for a plain bool `b`. */
    function EqBool(other: bool): (r: bool)
      ensures r <==> this == LexicalBool(other)
    {
      other == value
    }
  }

  /** The only failure: the input is in neither list. It keeps the input as
      it was given, before lowering. */
  datatype Error = InvalidInput(input: string)

  /** `values.iter().any(|k| k == e)`. */
  function Contains(values: seq<string>, e: string): (r: bool)
    ensures r <==> e in values
  {
    if values == [] then false
    else
      assert values == [values[0]] + values[1..];
      values[0] == e || Contains(values[1..], e)
  }

  /** The two write-once cells of one execution context, as a value: `None`
      while a cell is unset, `Some(list)` once it has been set. */
  datatype Slots = Slots(truthy: Option<seq<string>>, falsey: Option<seq<string>>)

  /** A context that has done nothing yet. */
  const Unset := Slots(None, None)

  /** What an initialization returns, and the cells after it. */
  datatype Initialized = Initialized(updated: bool, after: Slots)

  /** What a parse returns, and the cells after it. */
  datatype Parsed = Parsed(result: Result<LexicalBool, Error>, after: Slots)

  /** The list a parse uses for a cell: what the cell holds, or the default
      that `get_or_init` puts in an unset cell. */
  function Resolve(cell: Option<seq<string>>, default: seq<string>): (r: seq<string>)
    ensures cell.Some? ==> r == cell.value
    ensures cell.None? ==> r == default
  {
    match cell
    case Some(v) => v
    case None => default
  }

  /** `get_or_init` is write-once: once a cell has been resolved and filled,
      resolving it again yields the same list, whatever default is offered. */
  lemma ResolveSettles(cell: Option<seq<string>>, first: seq<string>, second: seq<string>)
    ensures Resolve(Some(Resolve(cell, first)), second) == Resolve(cell, first)
  {
  }

  /** `initialize_true_values`: succeeds exactly when the truthy cell is
      unset, and then installs `values` as given; the falsey cell is never
      touched. */
  function SetTruthy(st: Slots, values: seq<string>): (r: Initialized)
    ensures r.updated <==> st.truthy.None?
    ensures r.after.truthy == Some(if r.updated then values else st.truthy.value)
    ensures !r.updated ==> r.after == st
    ensures r.after.falsey == st.falsey
  {
    if st.truthy.None? then Initialized(true, st.(truthy := Some(values)))
    else Initialized(false, st)
  }

  /** `initialize_false_values`: the same for the falsey cell. */
  function SetFalsey(st: Slots, values: seq<string>): (r: Initialized)
    ensures r.updated <==> st.falsey.None?
    ensures r.after.falsey == Some(if r.updated then values else st.falsey.value)
    ensures !r.updated ==> r.after == st
    ensures r.after.truthy == st.truthy
  {
    if st.falsey.None? then Initialized(true, st.(falsey := Some(values)))
    else Initialized(false, st)
  }

  /** `LexicalBool::from_str`: the lowered input is looked up in the truthy
      list first and in the falsey list only if that fails. The falsey cell
      is filled with its default only when the lookup gets that far. */
  function Parse(st: Slots, s: string): (p: Parsed)
    ensures var e, t, f := Ascii.ToLower(s), Resolve(st.truthy, TruthyValues), Resolve(st.falsey, FalseyValues);
      && (p.result == Ok(LexicalBool(true)) <==> e in t)
      && (p.result == Ok(LexicalBool(false)) <==> e !in t && e in f)
      && (p.result.Err? <==> e !in t && e !in f)
      && (p.result.Err? ==> p.result.error == InvalidInput(s))
      && p.after.truthy == Some(t)
      && p.after.falsey == if e in t then st.falsey else Some(f)
  {
    var e := Ascii.ToLower(s);
    var truthy := Resolve(st.truthy, TruthyValues);
    if Contains(truthy, e) then
      Parsed(Ok(LexicalBool(true)), st.(truthy := Some(truthy)))
    else
      var falsey := Resolve(st.falsey, FalseyValues);
      var after := Slots(Some(truthy), Some(falsey));
      if Contains(falsey, e) then Parsed(Ok(LexicalBool(false)), after)
      else Parsed(Err(InvalidInput(s)), after)
  }

  /** Once a cell is set, a second initialization of it fails and changes
      nothing, whatever values it offers. */
  lemma SetTruthyOnce(st: Slots, first: seq<string>, second: seq<string>)
    ensures var r1 := SetTruthy(st, first);
      && !SetTruthy(r1.after, second).updated
      && SetTruthy(r1.after, second).after == r1.after
  {
  }

  lemma SetFalseyOnce(st: Slots, first: seq<string>, second: seq<string>)
    ensures var r1 := SetFalsey(st, first);
      && !SetFalsey(r1.after, second).updated
      && SetFalsey(r1.after, second).after == r1.after
  {
  }

  /** A word in both lists parses as `true`, and the falsey cell is left as
      it was, unset if it was unset. */
  lemma TruthyWins(st: Slots, s: string)
    requires Ascii.ToLower(s) in Resolve(st.truthy, TruthyValues)
    requires Ascii.ToLower(s) in Resolve(st.falsey, FalseyValues)
    ensures Parse(st, s).result == Ok(LexicalBool(true))
    ensures Parse(st, s).after.falsey == st.falsey
  {
  }

  /** A parse on an unset truthy cell installs the defaults, after which an
      explicit initialization of that cell fails. */
  lemma ParseFixesTruthy(st: Slots, s: string, values: seq<string>)
    requires st.truthy.None?
    ensures Parse(st, s).after.truthy == Some(TruthyValues)
    ensures !SetTruthy(Parse(st, s).after, values).updated
  {
  }

  /** The same for the falsey cell, when the parse gets past the truthy
      list. */
  lemma ParseFixesFalsey(st: Slots, s: string, values: seq<string>)
    requires st.falsey.None?
    requires Parse(st, s).result != Ok(LexicalBool(true))
    ensures Parse(st, s).after.falsey == Some(FalseyValues)
    ensures !SetFalsey(Parse(st, s).after, values).updated
  {
  }

  /** A parse that matches the truthy list does not fix the falsey list: an
      unset falsey cell can still be initialized afterwards. */
  lemma TruthyHitLeavesFalseyOpen(st: Slots, s: string, values: seq<string>)
    requires st.falsey.None?
    requires Parse(st, s).result == Ok(LexicalBool(true))
    ensures Parse(st, s).after.falsey.None?
    ensures SetFalsey(Parse(st, s).after, values).updated
  {
  }

  /** A parse never unsets or changes a cell that was already set. */
  lemma ParseKeepsSetCells(st: Slots, s: string)
    ensures st.truthy.Some? ==> Parse(st, s).after.truthy == st.truthy
    ensures st.falsey.Some? ==> Parse(st, s).after.falsey == st.falsey
  {
  }

  /** Parsing the same input again in the same context gives the same
      result and changes nothing more. */
  lemma ParseIdempotent(st: Slots, s: string)
    ensures var p := Parse(st, s);
      Parse(p.after, s) == p
  {
  }

  /** Only the ASCII-lowered input matters: two inputs that agree up to
      ASCII case get the same outcome and leave the same cells behind; an
      error still carries each one's own text. */
  lemma ParseIgnoresCase(st: Slots, s1: string, s2: string)
    requires |s1| == |s2|
    requires forall i :: 0 <= i < |s1| ==> Ascii.SameIgnoringCase(s1[i], s2[i])
    ensures Parse(st, s1).after == Parse(st, s2).after
    ensures Parse(st, s1).result.Ok? ==> Parse(st, s1).result == Parse(st, s2).result
    ensures Parse(st, s1).result.Err? <==> Parse(st, s2).result.Err?
  {
    Ascii.ToLowerAgrees(s1, s2);
  }

  /** The configured words that some input can match: those without an
      ASCII capital. */
  function Lowerable(values: seq<string>): (r: seq<string>)
    ensures forall w :: w in r <==> w in values && Ascii.NoUpper(w)
  {
    if values == [] then []
    else
      assert values == [values[0]] + values[1..];
      (if Ascii.NoUpper(values[0]) then [values[0]] else []) + Lowerable(values[1..])
  }

  /** Configured words with an ASCII capital in them are dead weight, since
      only the input is lowered: dropping them from both lists changes no
      parse result. */
  lemma UpperTokensIgnored(t: seq<string>, f: seq<string>, s: string)
    ensures Parse(Slots(Some(t), Some(f)), s).result ==
            Parse(Slots(Some(Lowerable(t)), Some(Lowerable(f))), s).result
  {
    forall w | w in t + f && !Ascii.NoUpper(w) ensures Ascii.ToLower(s) != w {
      Ascii.NeverLowersTo(w, s);
    }
  }

  /** With default lists, every default truthy word in any ASCII case parses
      as `true` and every default falsey word as `false`; anything else is
      rejected with the input it was given. */
  lemma DefaultsClassify(s: string)
    ensures Ascii.ToLower(s) in TruthyValues ==> Parse(Unset, s).result == Ok(LexicalBool(true))
    ensures Ascii.ToLower(s) in FalseyValues ==> Parse(Unset, s).result == Ok(LexicalBool(false))
    ensures Ascii.ToLower(s) !in TruthyValues + FalseyValues ==>
              Parse(Unset, s).result == Err(InvalidInput(s))
  {
  }

  /** One execution context: the two thread-local write-once cells. */
  class Context {
    var trueValues: Option<seq<string>>
    var falseValues: Option<seq<string>>

    function State(): Slots
      reads this
    {
      Slots(trueValues, falseValues)
    }

    /** A fresh context: both cells unset. */
    constructor ()
      ensures State() == Unset
    {
      trueValues := None;
      falseValues := None;
    }

    method InitializeTrueValues(values: seq<string>) returns (updated: bool)
      modifies this
      ensures SetTruthy(old(State()), values) == Initialized(updated, State())
    {
      updated := trueValues.None?;
      if updated {
        trueValues := Some(values);
      }
    }

    method InitializeFalseValues(values: seq<string>) returns (updated: bool)
      modifies this
      ensures SetFalsey(old(State()), values) == Initialized(updated, State())
    {
      updated := falseValues.None?;
      if updated {
        falseValues := Some(values);
      }
    }

    method FromStr(s: string) returns (r: Result<LexicalBool, Error>)
      modifies this
      ensures Parse(old(State()), s) == Parsed(r, State())
    {
      var e := Ascii.ToLower(s);
      if trueValues.None? {
        trueValues := Some(TruthyValues);
      }
      if Contains(trueValues.value, e) {
        return Ok(LexicalBool(true));
      }
      if falseValues.None? {
        falseValues := Some(FalseyValues);
      }
      if Contains(falseValues.value, e) {
        return Ok(LexicalBool(false));
      }
      return Err(InvalidInput(s));
    }
  }
}
