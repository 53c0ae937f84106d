/** The `LLM` instance registry (app/llm.py:21-48): `LLM(name)` builds one object per configuration
    name and hands that same object out on every later call, so whoever changes it changes it for
    everyone holding it. Objects live in a store and are referred to by their position in it. */
module Registry {
  import opened Wrappers
  import opened Dicts
  import opened Gateway

  /** One entry of the `llm` configuration table. Temperatures are taken as exact reals. */
  datatype Settings = Settings(
    model: string,
    maxTokens: int,
    temperature: real,
    apiType: string,
    apiKey: string,
    apiVersion: string,
    baseUrl: string)

  /** A reference to an `LLM` object: its position in the store. */
  type Handle = nat

  /** `LLM._instances`, from configuration name to object, and the attributes of every object built
      so far (they are copied from settings when the object is built, and only `model` and
      `temperature` are ever assigned afterwards). */
  datatype Heap = Heap(instances: Dict<string, Handle>, objects: seq<Settings>)

  /** Every registered name refers to an object that exists, and names are distinct. */
  predicate Valid(h: Heap) {
    && DistinctKeys(h.instances)
    && forall i :: 0 <= i < |h.instances| ==> h.instances[i].1 < |h.objects|
  }

  /** The table `__init__` reads: the one passed in if it is non-empty (`llm_config or config.llm`),
      the global one otherwise. */
  function Table(given: Option<Dict<string, Settings>>, global: Dict<string, Settings>): Dict<string, Settings> {
    if given.Some? && |given.value| > 0 then given.value else global
  }

  /** `LLM(name, llm_config)`: the registered object if there is one, untouched; otherwise a new
      object built from the table's entry for `name`, or its `"default"` entry when there is none,
      registered under `name`. `llm_config["default"]` is evaluated before the lookup, so a table
      without a `"default"` entry raises `KeyError` even when it has `name`, and the failed object is
      never registered. */
  function New(h: Heap, name: string, given: Option<Dict<string, Settings>>, global: Dict<string, Settings>)
    : Result<(Heap, Handle), Fault>
  {
    match Get(h.instances, name)
    case Some(k) => Success((h, k))
    case None =>
      var table := Table(given, global);
      match Get(table, "default")
      case None => Failure(MissingKey("default"))
      case Some(d) =>
        var s := Get(table, name).GetOr(d);
        var k := |h.objects|;
        Success((Heap(Put(h.instances, name, k), h.objects + [s]), k))
  }

  /** A registered name yields its object and changes nothing, whatever tables are passed. */
  lemma NewRegistered(h: Heap, name: string, given: Option<Dict<string, Settings>>, global: Dict<string, Settings>)
    requires HasKey(h.instances, name)
    ensures New(h, name, given, global) == Success((h, Get(h.instances, name).value))
  {
  }

  /** Asking again for a name just built yields the same object and leaves everything as it was:
      the settings of the first construction persist. */
  lemma NewAgain(h: Heap, name: string, given: Option<Dict<string, Settings>>, global: Dict<string, Settings>,
                 given2: Option<Dict<string, Settings>>, global2: Dict<string, Settings>)
    requires New(h, name, given, global).Success?
    ensures var (h1, k) := New(h, name, given, global).value;
      New(h1, name, given2, global2) == Success((h1, k))
  {
    var (h1, k) := New(h, name, given, global).value;
    if !HasKey(h.instances, name) {
      PutGet(h.instances, name, k);
    }
  }

  /** A name not yet registered gets a new object holding the table's entry for it, or the
      `"default"` entry when there is none, and is registered under its own name; every other name
      keeps its object and every existing object is untouched. */
  lemma NewFresh(h: Heap, name: string, given: Option<Dict<string, Settings>>, global: Dict<string, Settings>,
                 other: string)
    requires !HasKey(h.instances, name) && HasKey(Table(given, global), "default")
    requires other != name
    ensures New(h, name, given, global).Success?
    ensures var (h1, k) := New(h, name, given, global).value;
      var table := Table(given, global);
      && k == |h.objects| && |h1.objects| == |h.objects| + 1 && h1.objects[..k] == h.objects
      && (HasKey(table, name) ==> h1.objects[k] == Get(table, name).value)
      && (!HasKey(table, name) ==> h1.objects[k] == Get(table, "default").value)
      && Get(h1.instances, name) == Some(k)
      && Get(h1.instances, other) == Get(h.instances, other)
  {
    var k := |h.objects|;
    PutGet(h.instances, name, k);
    PutOther(h.instances, name, k, other);
  }

  /** Without a `"default"` entry an unregistered name raises `KeyError('default')`, even when the
      table has an entry for that name. */
  lemma NewWithoutDefault(h: Heap, name: string, given: Option<Dict<string, Settings>>, global: Dict<string, Settings>)
    requires !HasKey(h.instances, name) && !HasKey(Table(given, global), "default")
    ensures New(h, name, given, global) == Failure(MissingKey("default"))
  {
  }

  /** Building objects keeps the registry well formed, and the handle returned refers to an
      existing object. */
  lemma NewValid(h: Heap, name: string, given: Option<Dict<string, Settings>>, global: Dict<string, Settings>)
    requires Valid(h) && New(h, name, given, global).Success?
    ensures var (h1, k) := New(h, name, given, global).value;
      Valid(h1) && k < |h1.objects|
  {
    var (h1, k) := New(h, name, given, global).value;
    if !HasKey(h.instances, name) {
      PutDistinct(h.instances, name, k);
      assert h1.instances == h.instances + [(name, k)];
    }
  }
}
