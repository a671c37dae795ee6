/**
 * `loadTextContentFlexible`: flattens the section of the current level into text variables
 * named by `_`-joined key paths, taking the target-language member of every object that has
 * one, and hands each variable to the host player.
 */
module TextHandler {
  import opened Wrappers
  import opened Decimal
  import opened Json

  /** `prefix ? `${prefix}_${key}` : key`: the empty prefix is the only falsy one. */
  function JoinPath(prefix: string, key: string): string {
    if prefix == "" then key else prefix + "_" + key
  }

  // ---------------------------------------------------------------------------------------
  // What `extractTextContent(obj, prefix)` returns, member by member.
  // ---------------------------------------------------------------------------------------

  /**
   * The variables after visiting the member at `path` whose value is `child`: nothing for a
   * value that is not an object; the target-language member of an object that has one;
   * otherwise everything found inside, merged over what was there (`Object.assign`).
   */
  function Visit(acc: map<string, Value>, path: string, child: Value, lang: string): map<string, Value>
    decreases child, 2
  {
    if !IsObject(child) then acc
    else match Get(child, lang)
      case Some(text) => acc[path := text]
      case None => acc + ExtractFrom(child, path, lang)
  }

  /** `extractTextContent(v, prefix)`. */
  function ExtractFrom(v: Value, prefix: string, lang: string): map<string, Value>
    decreases v, 1
  {
    ExtractLoop(map[], v, prefix, lang, 0)
  }

  /**
   * The `forEach` over `Object.keys(v)` from position `i` on, starting from the variables
   * `acc`. The members of a string are one-character strings, which are not objects, so they
   * add nothing.
   */
  function ExtractLoop(acc: map<string, Value>, v: Value, prefix: string, lang: string, i: nat): map<string, Value>
    decreases v, 0, |Members(v)| - i
  {
    if i >= |Members(v)| then acc
    else
      var path := JoinPath(prefix, Members(v)[i].0);
      var next := match v
        case JObject(ms) => Visit(acc, path, ms[i].1, lang)
        case JArray(items) => Visit(acc, path, items[i], lang)
        case _ => acc;
      ExtractLoop(next, v, prefix, lang, i + 1)
  }

  /** `extractTextContent`: a recursive walk that fills a local dictionary member by member. */
  method ExtractTextContent(obj: Value, prefix: string, lang: string) returns (textVariables: map<string, Value>)
    ensures textVariables == ExtractFrom(obj, prefix, lang)
    decreases obj
  {
    textVariables := map[];
    var keys := Members(obj);
    for i := 0 to |keys|
      invariant ExtractLoop(textVariables, obj, prefix, lang, i) == ExtractFrom(obj, prefix, lang)
    {
      var currentPath := JoinPath(prefix, keys[i].0);
      if obj.JObject? || obj.JArray? {
        var child := if obj.JObject? then obj.members[i].1 else obj.items[i];
        ExtractLoopUnfold(textVariables, obj, prefix, lang, i);
        if IsObject(child) {
          match Get(child, lang) {
            case Some(text) =>
              VisitFound(textVariables, currentPath, child, lang);
              textVariables := textVariables[currentPath := text];
            case None =>
              VisitNested(textVariables, currentPath, child, lang);
              var nestedVars := ExtractTextContent(child, currentPath, lang);
              textVariables := textVariables + nestedVars;
          }
        }
      }
    }
  }

  // ---------------------------------------------------------------------------------------
  // Reference: the language objects reachable through objects without the language.
  // ---------------------------------------------------------------------------------------

  /**
   * `idxs` picks a member at each level, by position in `Object.keys` order: every member
   * picked is an object, the last one has a `lang` member and none before it does.
   */
  predicate TextPath(v: Value, idxs: seq<nat>, lang: string)
    ensures TextPath(v, idxs, lang) ==> IsObject(v)
    decreases |idxs|
  {
    && |idxs| >= 1
    && idxs[0] < |Members(v)|
    && IsObject(Members(v)[idxs[0]].1)
    && var child := Members(v)[idxs[0]].1;
       if |idxs| == 1 then Get(child, lang).Some?
       else Get(child, lang).None? && TextPath(child, idxs[1..], lang)
  }

  /** The variable name of a text path: the keys along it joined with `_`, after `prefix`. */
  function PathName(v: Value, prefix: string, idxs: seq<nat>, lang: string): (r: string)
    requires TextPath(v, idxs, lang)
    decreases |idxs|
  {
    var path := JoinPath(prefix, Members(v)[idxs[0]].0);
    if |idxs| == 1 then path else PathName(Members(v)[idxs[0]].1, path, idxs[1..], lang)
  }

  /** The target-language value at the end of a text path. */
  function PathValue(v: Value, idxs: seq<nat>, lang: string): (r: Value)
    requires TextPath(v, idxs, lang)
    ensures exists holder :: IsObject(holder) && Get(holder, lang) == Some(r)
    decreases |idxs|
  {
    var child := Members(v)[idxs[0]].1;
    if |idxs| == 1 then Get(child, lang).value else PathValue(child, idxs[1..], lang)
  }

  // ---------------------------------------------------------------------------------------
  // Properties of the extraction.
  // ---------------------------------------------------------------------------------------

  /** A visit only adds to the variables it starts from (later entries override). */
  lemma VisitAccumulates(acc: map<string, Value>, path: string, child: Value, lang: string)
    ensures Visit(acc, path, child, lang) == acc + Visit(map[], path, child, lang)
  {
  }

  /** An object with the language contributes its language member under its own path. */
  lemma VisitFound(acc: map<string, Value>, path: string, child: Value, lang: string)
    requires IsObject(child) && Get(child, lang).Some?
    ensures Visit(acc, path, child, lang) == acc[path := Get(child, lang).value]
  {
  }

  /** An object without the language contributes what is found inside it. */
  lemma VisitNested(acc: map<string, Value>, path: string, child: Value, lang: string)
    requires IsObject(child) && Get(child, lang).None?
    ensures Visit(acc, path, child, lang) == acc + ExtractFrom(child, path, lang)
  {
  }

  /** The loop only adds to the variables it starts from (later entries override). */
  lemma {:induction false} ExtractLoopAccumulates(acc: map<string, Value>, v: Value, prefix: string, lang: string, i: nat)
    ensures ExtractLoop(acc, v, prefix, lang, i) == acc + ExtractLoop(map[], v, prefix, lang, i)
    decreases |Members(v)| - i
  {
    if i < |Members(v)| {
      if IsObject(v) {
        var path := JoinPath(prefix, Members(v)[i].0);
        var child := Members(v)[i].1;
        var mine, alone := Visit(acc, path, child, lang), Visit(map[], path, child, lang);
        var rest := ExtractLoop(map[], v, prefix, lang, i + 1);
        ExtractLoopUnfold(acc, v, prefix, lang, i);
        ExtractLoopUnfold(map[], v, prefix, lang, i);
        ExtractLoopAccumulates(mine, v, prefix, lang, i + 1);
        ExtractLoopAccumulates(alone, v, prefix, lang, i + 1);
        VisitAccumulates(acc, path, child, lang);
        UnionAssociates(acc, alone, rest);
      } else {
        ExtractLoopNonObject(v, prefix, lang, i);
        ExtractLoopSkips(acc, v, prefix, lang, i);
      }
    }
  }

  /** One member of an object or array: the loop continues from the visit of that member. */
  lemma ExtractLoopUnfold(acc: map<string, Value>, v: Value, prefix: string, lang: string, i: nat)
    requires i < |Members(v)| && IsObject(v)
    ensures ExtractLoop(acc, v, prefix, lang, i)
         == ExtractLoop(Visit(acc, JoinPath(prefix, Members(v)[i].0), Members(v)[i].1, lang), v, prefix, lang, i + 1)
  {
    var child := if v.JObject? then v.members[i].1 else v.items[i];
    assert child == Members(v)[i].1;
  }

  /** The loop over a value that is not an object or array keeps its starting variables. */
  lemma {:induction false} ExtractLoopSkips(acc: map<string, Value>, v: Value, prefix: string, lang: string, i: nat)
    requires !IsObject(v)
    ensures ExtractLoop(acc, v, prefix, lang, i) == acc
    decreases |Members(v)| - i
  {
    if i < |Members(v)| {
      ExtractLoopSkips(acc, v, prefix, lang, i + 1);
    }
  }

  lemma UnionAssociates(a: map<string, Value>, b: map<string, Value>, c: map<string, Value>)
    ensures (a + b) + c == a + (b + c)
  {
  }

  /** Member `i`'s variables, then those of the members after it, later ones overriding. */
  lemma ExtractLoopStep(v: Value, prefix: string, lang: string, i: nat)
    requires i < |Members(v)| && IsObject(v)
    ensures ExtractLoop(map[], v, prefix, lang, i)
         == Visit(map[], JoinPath(prefix, Members(v)[i].0), Members(v)[i].1, lang) + ExtractLoop(map[], v, prefix, lang, i + 1)
  {
    var first := Visit(map[], JoinPath(prefix, Members(v)[i].0), Members(v)[i].1, lang);
    ExtractLoopAccumulates(first, v, prefix, lang, i + 1);
  }

  /**
   * Soundness: every variable the walk from member `i` on produces is named by a text path
   * starting at a member from `i` on, and holds the target-language value at its end.
   */
  lemma {:induction false} ExtractLoopSound(v: Value, prefix: string, lang: string, i: nat, name: string)
    requires name in ExtractLoop(map[], v, prefix, lang, i)
    ensures exists idxs :: (TextPath(v, idxs, lang) && idxs[0] >= i
      && PathName(v, prefix, idxs, lang) == name
      && PathValue(v, idxs, lang) == ExtractLoop(map[], v, prefix, lang, i)[name])
    decreases v, |Members(v)| - i
  {
    var vars := ExtractLoop(map[], v, prefix, lang, i);
    if !IsObject(v) {
      ExtractLoopNonObject(v, prefix, lang, i);
    } else {
      assert i < |Members(v)|;
      ExtractLoopStep(v, prefix, lang, i);
      var key := Members(v)[i].0;
      var path := JoinPath(prefix, key);
      var child := if v.JObject? then v.members[i].1 else v.items[i];
      assert child == Members(v)[i].1;
      var here := Visit(map[], path, child, lang);
      var rest := ExtractLoop(map[], v, prefix, lang, i + 1);
      if name in rest {
        ExtractLoopSound(v, prefix, lang, i + 1, name);
        var idxs :| TextPath(v, idxs, lang) && idxs[0] >= i + 1
          && PathName(v, prefix, idxs, lang) == name && PathValue(v, idxs, lang) == rest[name];
        assert vars[name] == rest[name];
      } else {
        assert name in here && vars[name] == here[name];
        VisitSound(v, prefix, lang, i, name);
      }
    }
  }

  /** Soundness for the variables the visit of member `i` produces. */
  lemma VisitSound(v: Value, prefix: string, lang: string, i: nat, name: string)
    requires IsObject(v) && i < |Members(v)|
    requires name in Visit(map[], JoinPath(prefix, Members(v)[i].0), Members(v)[i].1, lang)
    ensures exists idxs :: (TextPath(v, idxs, lang) && idxs[0] >= i
      && PathName(v, prefix, idxs, lang) == name
      && PathValue(v, idxs, lang) == Visit(map[], JoinPath(prefix, Members(v)[i].0), Members(v)[i].1, lang)[name])
    decreases v, |Members(v)| - i - 1
  {
    var path := JoinPath(prefix, Members(v)[i].0);
    var child := Members(v)[i].1;
    var here := Visit(map[], path, child, lang);
    match Get(child, lang)
    case Some(text) =>
      SinglePath(v, prefix, lang, i);
      VisitFound(map[], path, child, lang);
      assert PathValue(v, [i], lang) == here[name];
    case None =>
      VisitNested(map[], path, child, lang);
      ExtractLoopSound(child, path, lang, 0, name);
      var tail :| TextPath(child, tail, lang) && PathName(child, path, tail, lang) == name
        && PathValue(child, tail, lang) == here[name];
      ConsPath(v, prefix, lang, i, tail);
      assert ([i] + tail)[0] == i;
  }

  /** One step to an object with the language is a text path. */
  lemma SinglePath(v: Value, prefix: string, lang: string, i: nat)
    requires i < |Members(v)| && IsObject(Members(v)[i].1) && Get(Members(v)[i].1, lang).Some?
    ensures TextPath(v, [i], lang)
    ensures PathName(v, prefix, [i], lang) == JoinPath(prefix, Members(v)[i].0)
    ensures PathValue(v, [i], lang) == Get(Members(v)[i].1, lang).value
  {
  }

  /** A step to an object without the language, followed by a text path inside it, is a text path. */
  lemma ConsPath(v: Value, prefix: string, lang: string, i: nat, tail: seq<nat>)
    requires i < |Members(v)| && IsObject(Members(v)[i].1) && Get(Members(v)[i].1, lang).None?
    requires TextPath(Members(v)[i].1, tail, lang)
    ensures TextPath(v, [i] + tail, lang)
    ensures PathName(v, prefix, [i] + tail, lang) == PathName(Members(v)[i].1, JoinPath(prefix, Members(v)[i].0), tail, lang)
    ensures PathValue(v, [i] + tail, lang) == PathValue(Members(v)[i].1, tail, lang)
  {
    assert ([i] + tail)[1..] == tail;
  }

  /** A value that is not an object yields no variable at all. */
  lemma ExtractLoopNonObject(v: Value, prefix: string, lang: string, i: nat)
    requires !IsObject(v)
    ensures ExtractLoop(map[], v, prefix, lang, i) == map[]
  {
    ExtractLoopSkips(map[], v, prefix, lang, i);
  }

  /** A text path of two or more steps continues, from the member it picks, as a text path of the rest. */
  lemma TextPathStep(v: Value, prefix: string, idxs: seq<nat>, lang: string)
    requires TextPath(v, idxs, lang) && |idxs| > 1
    ensures var child := Members(v)[idxs[0]].1;
      && Get(child, lang).None?
      && TextPath(child, idxs[1..], lang)
      && PathName(v, prefix, idxs, lang) == PathName(child, JoinPath(prefix, Members(v)[idxs[0]].0), idxs[1..], lang)
  {
  }

  /**
   * Completeness: the name of every text path starting at a member from `i` on is among the
   * variables the walk produces (its value is that of the last path with the same name).
   */
  lemma {:induction false} ExtractLoopComplete(v: Value, prefix: string, lang: string, i: nat, idxs: seq<nat>)
    requires TextPath(v, idxs, lang) && idxs[0] >= i
    ensures PathName(v, prefix, idxs, lang) in ExtractLoop(map[], v, prefix, lang, i)
    decreases v, |Members(v)| - i
  {
    var name := PathName(v, prefix, idxs, lang);
    TextPathFromObject(v, idxs, lang);
    if idxs[0] > i {
      ExtractLoopComplete(v, prefix, lang, i + 1, idxs);
      LaterMemberKept(v, prefix, lang, i, name);
    } else {
      var path := JoinPath(prefix, Members(v)[i].0);
      if |idxs| == 1 {
        SingleComplete(v, prefix, idxs, lang);
      } else {
        var child := if v.JObject? then v.members[i].1 else v.items[i];
        assert child == Members(v)[i].1;
        TextPathStep(v, prefix, idxs, lang);
        ExtractLoopComplete(child, path, lang, 0, idxs[1..]);
        VisitNested(map[], path, child, lang);
      }
      ThisMemberKept(v, prefix, lang, i, name);
    }
  }

  /** A one-step text path names the variable its member contributes. */
  lemma SingleComplete(v: Value, prefix: string, idxs: seq<nat>, lang: string)
    requires TextPath(v, idxs, lang) && |idxs| == 1
    ensures PathName(v, prefix, idxs, lang) in
      Visit(map[], JoinPath(prefix, Members(v)[idxs[0]].0), Members(v)[idxs[0]].1, lang)
  {
    VisitFound(map[], JoinPath(prefix, Members(v)[idxs[0]].0), Members(v)[idxs[0]].1, lang);
  }

  /** A variable found by the walk from member `i + 1` on is also found from member `i` on. */
  lemma LaterMemberKept(v: Value, prefix: string, lang: string, i: nat, name: string)
    requires IsObject(v) && i < |Members(v)|
    requires name in ExtractLoop(map[], v, prefix, lang, i + 1)
    ensures name in ExtractLoop(map[], v, prefix, lang, i)
  {
    ExtractLoopStep(v, prefix, lang, i);
  }

  /** A variable contributed by member `i` is found by the walk from member `i` on. */
  lemma ThisMemberKept(v: Value, prefix: string, lang: string, i: nat, name: string)
    requires IsObject(v) && i < |Members(v)|
    requires name in Visit(map[], JoinPath(prefix, Members(v)[i].0), Members(v)[i].1, lang)
    ensures name in ExtractLoop(map[], v, prefix, lang, i)
  {
    ExtractLoopStep(v, prefix, lang, i);
  }

  /** Only objects and arrays have text paths: the members of anything else are never objects. */
  lemma TextPathFromObject(v: Value, idxs: seq<nat>, lang: string)
    requires TextPath(v, idxs, lang)
    ensures IsObject(v) && idxs[0] < |Members(v)|
  {
  }

  /** Every variable of `extractTextContent(v, prefix)` is a text path's name holding that path's value. */
  lemma ExtractSound(v: Value, prefix: string, lang: string, name: string)
    requires name in ExtractFrom(v, prefix, lang)
    ensures exists idxs :: (TextPath(v, idxs, lang)
      && PathName(v, prefix, idxs, lang) == name && PathValue(v, idxs, lang) == ExtractFrom(v, prefix, lang)[name])
  {
    ExtractLoopSound(v, prefix, lang, 0, name);
  }

  /** Every text path of `v` names a variable of `extractTextContent(v, prefix)`. */
  lemma ExtractComplete(v: Value, prefix: string, lang: string, idxs: seq<nat>)
    requires TextPath(v, idxs, lang)
    ensures PathName(v, prefix, idxs, lang) in ExtractFrom(v, prefix, lang)
  {
    ExtractLoopComplete(v, prefix, lang, 0, idxs);
  }

  /** A text path's name starts with the prefix and `_`; with no prefix, with the first key. */
  lemma {:induction false} PathNameShape(v: Value, prefix: string, idxs: seq<nat>, lang: string)
    requires TextPath(v, idxs, lang)
    ensures var name := PathName(v, prefix, idxs, lang);
      var head := JoinPath(prefix, Members(v)[idxs[0]].0);
      |head| <= |name| && name[..|head|] == head
    decreases |idxs|
  {
    var head := JoinPath(prefix, Members(v)[idxs[0]].0);
    if |idxs| > 1 {
      var child := Members(v)[idxs[0]].1;
      PathNameShape(child, head, idxs[1..], lang);
      var next := JoinPath(head, Members(child)[idxs[1]].0);
      assert next[..|head|] == head;
    }
  }

  /** With a prefix, every variable name is `prefix_…`. */
  lemma ExtractNamesPrefixed(v: Value, prefix: string, lang: string, name: string)
    requires prefix != "" && name in ExtractFrom(v, prefix, lang)
    ensures |prefix| + 1 <= |name| && name[..|prefix| + 1] == prefix + "_"
  {
    ExtractSound(v, prefix, lang, name);
    var idxs :| TextPath(v, idxs, lang) && PathName(v, prefix, idxs, lang) == name;
    PathNameShape(v, prefix, idxs, lang);
    PrefixedByHead(prefix, Members(v)[idxs[0]].0, name);
  }

  lemma PrefixedByHead(prefix: string, key: string, name: string)
    requires prefix != ""
    requires var head := JoinPath(prefix, key); |head| <= |name| && name[..|head|] == head
    ensures |prefix| + 1 <= |name| && name[..|prefix| + 1] == prefix + "_"
  {
    var head := prefix + "_" + key;
    assert head[..|prefix| + 1] == prefix + "_";
    assert name[..|prefix| + 1] == head[..|prefix| + 1];
  }

  /**
   * Later members win: the variables of an object whose members are `ms1` then `ms2` are those
   * of `ms1` overridden by those of `ms2`.
   */
  lemma ExtractConcat(ms1: seq<(string, Value)>, ms2: seq<(string, Value)>, prefix: string, lang: string)
    ensures ExtractFrom(JObject(ms1 + ms2), prefix, lang)
         == ExtractFrom(JObject(ms1), prefix, lang) + ExtractFrom(JObject(ms2), prefix, lang)
  {
    ExtractConcatFrom(map[], ms1, ms2, prefix, lang, 0);
    ExtractLoopAccumulates(ExtractFrom(JObject(ms1), prefix, lang), JObject(ms2), prefix, lang, 0);
  }

  lemma {:induction false} ExtractConcatFrom(acc: map<string, Value>, ms1: seq<(string, Value)>, ms2: seq<(string, Value)>,
                                             prefix: string, lang: string, i: nat)
    requires i <= |ms1|
    ensures ExtractLoop(acc, JObject(ms1 + ms2), prefix, lang, i)
         == ExtractLoop(ExtractLoop(acc, JObject(ms1), prefix, lang, i), JObject(ms2), prefix, lang, 0)
    decreases |ms1| - i
  {
    if i < |ms1| {
      assert (ms1 + ms2)[i] == ms1[i];
      var next := Visit(acc, JoinPath(prefix, ms1[i].0), ms1[i].1, lang);
      ExtractLoopUnfold(acc, JObject(ms1 + ms2), prefix, lang, i);
      ExtractLoopUnfold(acc, JObject(ms1), prefix, lang, i);
      ExtractConcatFrom(next, ms1, ms2, prefix, lang, i + 1);
    } else {
      ExtractShifted(acc, ms1, ms2, prefix, lang, 0);
    }
  }

  lemma {:induction false} ExtractShifted(acc: map<string, Value>, ms1: seq<(string, Value)>, ms2: seq<(string, Value)>,
                                          prefix: string, lang: string, j: nat)
    requires j <= |ms2|
    ensures ExtractLoop(acc, JObject(ms1 + ms2), prefix, lang, |ms1| + j) == ExtractLoop(acc, JObject(ms2), prefix, lang, j)
    decreases |ms2| - j
  {
    if j < |ms2| {
      assert (ms1 + ms2)[|ms1| + j] == ms2[j];
      var next := Visit(acc, JoinPath(prefix, ms2[j].0), ms2[j].1, lang);
      ExtractLoopUnfold(acc, JObject(ms1 + ms2), prefix, lang, |ms1| + j);
      ExtractLoopUnfold(acc, JObject(ms2), prefix, lang, j);
      ExtractShifted(next, ms1, ms2, prefix, lang, j + 1);
    }
  }

  // ---------------------------------------------------------------------------------------
  // The host player and `loadTextContentFlexible`.
  // ---------------------------------------------------------------------------------------

  /** The host's variable store, with the names passed to `SetVar` in call order. */
  class Player {
    var vars: map<string, Value>
    var log: seq<string>

    constructor(initial: map<string, Value>)
      ensures vars == initial && log == []
    {
      vars := initial;
      log := [];
    }

    /** `player.SetVar(name, value)`. */
    method SetVar(name: string, value: Value)
      modifies this
      ensures vars == old(vars)[name := value]
      ensures log == old(log) + [name]
    {
      vars := vars[name := value];
      log := log + [name];
    }
  }

  /**
   * The variables `loadTextContentFlexible` sets, or nothing when it stops early: when
   * `contentData` is falsy, when `contentData.level[level]` throws or is falsy.
   */
  function TextVariables(contentData: Value, level: string, lang: string): (r: Option<map<string, Value>>)
    ensures r.Some? ==> Truthy(contentData)
    ensures r.Some? <==> Truthy(contentData) && Section(contentData, level).Some? && Truthy(Section(contentData, level).value)
  {
    if !Truthy(contentData) then None
    else match Section(contentData, level)
      case None => None
      case Some(section) => if !Truthy(section) then None else Some(ExtractFrom(section, "", lang))
  }

  /** No name occurs twice. */
  predicate NoDuplicates(names: seq<string>) {
    forall i, j :: 0 <= i < j < |names| ==> names[i] != names[j]
  }

  /** `Object.keys(m)`: every key once, in an order the model leaves open. */
  method Keys(m: map<string, Value>) returns (names: seq<string>)
    ensures NoDuplicates(names)
    ensures forall name :: name in names <==> name in m
  {
    names := [];
    var pending := m.Keys;
    while pending != {}
      invariant pending <= m.Keys
      invariant NoDuplicates(names)
      invariant forall name :: name in names <==> name in m && name !in pending
      decreases |pending|
    {
      var name :| name in pending;
      names := names + [name];
      pending := pending - {name};
    }
  }

  /** The store after `SetVar(n, all[n])` for each name `n` of `names` in turn. */
  function SetEach(store: map<string, Value>, all: map<string, Value>, names: seq<string>): map<string, Value>
    requires forall name :: name in names ==> name in all
  {
    if names == [] then store
    else SetEach(store, all, names[..|names| - 1])[names[|names| - 1] := all[names[|names| - 1]]]
  }

  /** Setting every variable of `all` once, in any order, overrides the store with `all`. */
  lemma {:induction false} SetEachOverrides(store: map<string, Value>, all: map<string, Value>, names: seq<string>)
    requires forall name :: name in names ==> name in all
    ensures SetEach(store, all, names) == store + map name | name in all && name in names :: all[name]
  {
    if names != [] {
      var init := names[..|names| - 1];
      assert forall name :: name in init ==> name in names;
      SetEachOverrides(store, all, init);
      assert forall name :: name in names <==> name in init || name == names[|names| - 1];
    }
  }

  /** Setting each variable of `all`, every one of them at least once, gives the store overridden by `all`. */
  lemma SetEachAll(store: map<string, Value>, all: map<string, Value>, names: seq<string>)
    requires forall name :: name in names <==> name in all
    ensures SetEach(store, all, names) == store + all
  {
    SetEachOverrides(store, all, names);
    assert (map name | name in all && name in names :: all[name]) == all;
  }

  /**
   * `Object.keys(all).forEach(name => player.SetVar(name, all[name]))`: every variable is
   * set exactly once, with its value.
   */
  method SetVariables(player: Player, all: map<string, Value>)
    modifies player
    ensures player.vars == old(player.vars) + all
    ensures |old(player.log)| <= |player.log| && player.log[..|old(player.log)|] == old(player.log)
    ensures NoDuplicates(player.log[|old(player.log)|..])
    ensures forall name :: name in player.log[|old(player.log)|..] <==> name in all
  {
    var names := Keys(all);
    ghost var before, logBefore := player.vars, player.log;
    for i := 0 to |names|
      invariant player.log == logBefore + names[..i]
      invariant player.vars == SetEach(before, all, names[..i])
    {
      assert names[..i + 1][..i] == names[..i];
      player.SetVar(names[i], all[names[i]]);
    }
    assert names[..|names|] == names;
    assert player.log[|logBefore|..] == names;
    SetEachAll(before, all, names);
  }

  /**
   * `loadTextContentFlexible`, with `level` and `targetLanguage` the keys the player's
   * `GetVar` returns: every extracted variable is set exactly once, with its value, and
   * nothing is set when the guards stop it.
   */
  method LoadTextContentFlexible(player: Player, contentData: Value, level: string, targetLanguage: string)
    modifies player
    ensures TextVariables(contentData, level, targetLanguage).None? ==>
      player.vars == old(player.vars) && player.log == old(player.log)
    ensures TextVariables(contentData, level, targetLanguage).Some? ==>
      var all := TextVariables(contentData, level, targetLanguage).value;
      && player.vars == old(player.vars) + all
      && |old(player.log)| <= |player.log|
      && player.log[..|old(player.log)|] == old(player.log)
      && NoDuplicates(player.log[|old(player.log)|..])
      && (forall name :: name in player.log[|old(player.log)|..] <==> name in all)
  {
    if !Truthy(contentData) {
      return;
    }
    var contentSection := Section(contentData, level);
    if contentSection.None? || !Truthy(contentSection.value) {
      return;
    }
    var allTextVariables := ExtractTextContent(contentSection.value, "", targetLanguage);
    SetVariables(player, allTextVariables);
  }
}
