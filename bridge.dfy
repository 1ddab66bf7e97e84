/**
 * The C bridge over the SWORD engine (src/bridge.cpp): module lookup, the
 * query that turns a reference into a result iterator, the forward-only
 * iterator itself and the single-verse wrapper.
 *
 * The engine stays abstract: the installed modules are a map from name to
 * module, parsing a reference is a function to a sequence of locations, and a
 * module's stripped text is a function of the location.
 */
module Bridge {
  import opened Wrappers
  import opened CStrings

  /** One verse address; only the verse number is read by the bridge. */
  datatype Location = Location(book: nat, chapter: nat, verse: int)

  /** An installed module: its plain text (markup stripped) at each location. */
  datatype Module = Module(text: Location -> CString)

  /**
   * The SWORD manager: installed modules by name, and the verse-list parser
   * (a VerseKey with intros and auto-normalisation, yielding every position
   * the resulting ListKey walks through, in the order the library gives them;
   * that order is not modelled).
   */
  datatype Manager = Manager(modules: map<CString, Module>, parse: CString -> seq<Location>)

  /** The context handle; `mgr` may be null. */
  datatype Context = Context(mgr: Option<Manager>)

  /** What a successful query binds its iterator to. */
  datatype Resolution = Resolution(swModule: Module, list: seq<Location>)

  /** sword_module_exists: null context, manager or name give false; otherwise a lookup. */
  function ModuleExists(ctx: Option<Context>, name: Option<CString>): (r: bool)
    ensures ctx.None? || ctx.value.mgr.None? || name.None? ==> !r
    ensures ctx.Some? && ctx.value.mgr.Some? && name.Some? ==> (r <==> name.value in ctx.value.mgr.value.modules)
  {
    ctx.Some? && ctx.value.mgr.Some? && name.Some? && name.value in ctx.value.mgr.value.modules
  }

  /**
   * What sword_query resolves `key` to against `version`: nothing when the
   * context or manager is null, the module is unknown or the parsed list is
   * empty; otherwise the module and the non-empty list of locations.
   */
  function Resolve(ctx: Option<Context>, version: CString, key: CString): (r: Option<Resolution>)
    ensures r.None? <==>
      (!ModuleExists(ctx, Some(version)) || |ctx.value.mgr.value.parse(key)| == 0)
    ensures r.Some? ==>
      r.value.swModule == ctx.value.mgr.value.modules[version] &&
      r.value.list == ctx.value.mgr.value.parse(key) && |r.value.list| > 0
  {
    if ctx.None? || ctx.value.mgr.None? then None
    else
      var mgr := ctx.value.mgr.value;
      if version !in mgr.modules then None
      else
        var list := mgr.parse(key);
        if |list| == 0 then None else Some(Resolution(mgr.modules[version], list))
  }

  /** The caller's `int *verse_num_out`. */
  class VerseCell {
    var value: int

    constructor (v: int)
      ensures value == v
    {
      value := v;
    }
  }

  /**
   * SwordIterator: the module, its ListKey (the list and an array position)
   * and the `started` flag. Position |list| is the ListKey's out-of-bounds
   * state, in which popError reports an error.
   */
  class SwordIterator {
    const swModule: Module
    const list: seq<Location>
    var pos: nat
    var started: bool

    ghost predicate Valid()
      reads this
    {
      |list| > 0 && pos <= |list| && (!started ==> pos == 0)
    }

    /** The locations later calls of IteratorNext will still deliver, in order. */
    ghost function Remaining(): (r: seq<Location>)
      reads this
      requires Valid()
      ensures |r| <= |list| && r == list[|list| - |r|..]
    {
      if !started then list
      else if pos < |list| then list[pos + 1..]
      else []
    }

    /** The state sword_query leaves: at the top of the list, not started. */
    constructor (swModule: Module, list: seq<Location>)
      requires |list| > 0
      ensures Valid() && this.swModule == swModule && this.list == list
      ensures pos == 0 && !started && Remaining() == list
    {
      this.swModule := swModule;
      this.list := list;
      pos := 0;
      started := false;
    }
  }

  /**
   * sword_query: refuses (null) exactly when Resolve does; otherwise a fresh
   * iterator over the resolved list, not started, that will deliver all of it.
   */
  method Query(ctx: Option<Context>, version: CString, key: CString) returns (iter: SwordIterator?)
    ensures iter == null <==> Resolve(ctx, version, key).None?
    ensures iter != null ==>
      fresh(iter) && iter.Valid() && !iter.started && iter.pos == 0 &&
      iter.swModule == Resolve(ctx, version, key).value.swModule &&
      iter.list == Resolve(ctx, version, key).value.list &&
      iter.Remaining() == iter.list
  {
    if ctx.None? || ctx.value.mgr.None? {
      return null;
    }
    var mgr := ctx.value.mgr.value;
    if version !in mgr.modules {
      return null;
    }
    var swModule := mgr.modules[version];
    var list := mgr.parse(key);
    if |list| == 0 {
      return null;
    }
    iter := new SwordIterator(swModule, list);
  }

  /**
   * sword_iterator_next: the first call stays on the top element, every later
   * call moves one step; the end of the list is detected before the module is
   * positioned, so no location past the end is read. The verse number is
   * written only through a non-null `verseOut` and only for a delivered verse.
   */
  method IteratorNext(iter: SwordIterator?, verseOut: VerseCell?) returns (text: Option<CString>)
    requires iter != null ==> iter.Valid()
    modifies iter, verseOut
    ensures iter == null ==> text == None && (verseOut != null ==> verseOut.value == old(verseOut.value))
    ensures iter != null ==> iter.Valid() && iter.started && old(iter.pos) <= iter.pos
    ensures iter != null && old(iter.Remaining()) == [] ==>
      text == None && iter.Remaining() == [] &&
      (verseOut != null ==> verseOut.value == old(verseOut.value))
    ensures iter != null && old(iter.Remaining()) != [] ==>
      text == Some(iter.swModule.text(old(iter.Remaining())[0])) &&
      iter.Remaining() == old(iter.Remaining())[1..] &&
      (verseOut != null ==> verseOut.value == old(iter.Remaining())[0].verse)
  {
    if iter == null {
      return None;
    }
    Advance(iter);
    if iter.pos == |iter.list| {
      return None;
    }
    var loc := iter.list[iter.pos];
    if verseOut != null {
      verseOut.value := loc.verse;
    }
    text := Some(iter.swModule.text(loc));
  }

  /**
   * The move at the start of sword_iterator_next: the first call only marks the
   * iterator started, later calls step the ListKey once (staying out of bounds
   * once there). What remained before is what lies from the new position on.
   */
  method Advance(iter: SwordIterator)
    requires iter.Valid()
    modifies iter
    ensures iter.Valid() && iter.started && old(iter.pos) <= iter.pos
    ensures old(iter.Remaining()) == if iter.pos < |iter.list| then iter.list[iter.pos..] else []
  {
    if iter.started {
      if iter.pos < |iter.list| {
        iter.pos := iter.pos + 1;
      }
    } else {
      iter.started := true;
    }
  }

  /**
   * sword_get_verse: nothing exactly when the query is refused; otherwise the
   * text of the first location of the resolved list.
   */
  method GetVerse(ctx: Option<Context>, version: CString, key: CString) returns (text: Option<CString>)
    ensures Resolve(ctx, version, key).None? ==> text == None
    ensures Resolve(ctx, version, key).Some? ==>
      var res := Resolve(ctx, version, key).value;
      text == Some(res.swModule.text(res.list[0]))
  {
    var iter := Query(ctx, version, key);
    if iter == null {
      return None;
    }
    text := IteratorNext(iter, null);
  }

  /** Once the iterator has reported the end, every later call reports the end too. */
  method ExhaustedStaysExhausted(iter: SwordIterator, verseOut: VerseCell?) returns (first: Option<CString>, second: Option<CString>)
    requires iter.Valid() && iter.Remaining() == []
    modifies iter, verseOut
    ensures first == None && second == None
    ensures iter.Valid() && iter.Remaining() == []
  {
    first := IteratorNext(iter, verseOut);
    second := IteratorNext(iter, verseOut);
  }
}
