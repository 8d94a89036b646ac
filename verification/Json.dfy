/** Values shared by every component: optional results, and the JSON/YAML value trees the
    policy engines, the ownership classifier and the document check read. */
module Wrappers {
  datatype Option<+T> = None | Some(value: T)

  /** Where a name is bound in a map, as a value rather than a precondition. */
  function Look<K, V>(m: map<K, V>, k: K): Option<V> {
    if k in m then Some(m[k]) else None
  }

  ghost predicate NoDup<T(!new)>(s: seq<T>) {
    forall i, j :: 0 <= i < j < |s| ==> s[i] != s[j]
  }

  lemma Associates<T>(a: seq<T>, b: seq<T>, c: seq<T>)
    ensures a + b + c == a + (b + c)
  {
  }

  /** Two maps that answer every lookup alike are the same map. */
  lemma SameLooksSameMap<K(!new), V>(a: map<K, V>, b: map<K, V>)
    requires forall k :: Look(a, k) == Look(b, k)
    ensures a == b
  {
    forall k
      ensures k in a <==> k in b
      ensures k in a ==> a[k] == b[k]
    {
      assert Look(a, k) == Look(b, k);
    }
    assert a.Keys == b.Keys;
  }
}

module Json {
  import opened Wrappers

  /** A parsed document: JSON, or the part of YAML that behaves like it. */
  datatype JSON =
    | JNull
    | JBool(b: bool)
    | JInt(i: int)
    | JReal(r: real)
    | JStr(s: string)
    | JArr(items: seq<JSON>)
    | JObj(fields: map<string, JSON>)

  /** What `value or default` keeps: everything Python does not call false. */
  predicate Truthy(v: JSON) {
    match v
    case JNull => false
    case JBool(b) => b
    case JInt(i) => i != 0
    case JReal(r) => r != 0.0
    case JStr(s) => s != ""
    case JArr(items) => items != []
    case JObj(fields) => fields != map[]
  }

  /** `mapping.get(key)`: an absent key and an explicit null answer alike. */
  function Get(fields: map<string, JSON>, key: string): JSON {
    if key in fields then fields[key] else JNull
  }

  /** Whether a value may be a member of a Python set. */
  predicate Hashable(v: JSON) {
    !v.JArr? && !v.JObj?
  }

  /** The representative Python's `==` compares scalars by: `True == 1 == 1.0`. */
  function PyKey(v: JSON): JSON {
    match v
    case JBool(b) => JInt(if b then 1 else 0)
    case JReal(r) => if r == r.Floor as real then JInt(r.Floor) else v
    case _ => v
  }

  function Number(v: JSON): Option<real> {
    match v
    case JBool(b) => Some(if b then 1.0 else 0.0)
    case JInt(i) => Some(i as real)
    case JReal(r) => Some(r)
    case _ => None
  }

  /** Two scalars meet in a set exactly if they are the same number, however written, or the same. */
  lemma KeysMeetIff(v: JSON, w: JSON)
    requires Hashable(v) && Hashable(w)
    ensures PyKey(v) == PyKey(w) <==> if Number(v).Some? then Number(v) == Number(w) else v == w
  {
  }

  /** `str.isspace` for one character, which is what `str.strip` removes. */
  predicate IsSpace(c: char) {
    || '\U{9}' <= c <= '\U{d}'
    || '\U{1c}' <= c <= ' '
    || c in {'\U{85}', '\U{a0}', '\U{1680}', '\U{2028}', '\U{2029}', '\U{202f}', '\U{205f}', '\U{3000}'}
    || '\U{2000}' <= c <= '\U{200a}'
  }

  /** The characters that are blank, by their code points. */
  lemma SpacesAre(c: char)
    ensures IsSpace(c) <==> c as int in {
      9, 10, 11, 12, 13, 28, 29, 30, 31, 32, 133, 160, 5760, 8192, 8193, 8194, 8195, 8196, 8197, 8198, 8199, 8200,
      8201, 8202, 8232, 8233, 8239, 8287, 12288}
  {
  }

  /** `not text.strip()`. */
  predicate Blank(text: string) {
    forall i :: 0 <= i < |text| ==> IsSpace(text[i])
  }
}

/** Directory entries, as the writers and the classifier tell them apart. */
module Files {
  import opened Wrappers
  import opened Json

  type Name = string

  type Id = nat

  /** A value of a parsed document, its `items` by reference where they are a list: an alias may make
      one value an item of several, and of itself. `shell` is the rest of it. */
  datatype Node = Node(shell: JSON, items: Option<seq<Id>>)

  type Heap = map<Id, Node>

  /** What a reader that follows kubectl's own decoder makes of a file. */
  datatype Reading = Parsed(heap: Heap, docs: seq<Id>) | Unparseable | TooDeep

  /** `owned` is the document list the ownership reader sees, as far down as it looks, `None` when
      the file cannot be parsed; `applied` is what the document check sees. The two readers differ on
      JSON streams, so neither is derived from the other. */
  datatype Entry =
    | Regular(text: string, owned: Option<seq<JSON>>, applied: Reading)
    | Symlink(resolves: bool)
    | Special

  type Tree = map<Name, Entry>

  /** `Path.exists`, which follows a link: a link with no target reads as absent. */
  predicate Exists(t: Tree, n: Name) {
    n in t && (t[n].Symlink? ==> t[n].resolves)
  }

  predicate Dangling(t: Tree, n: Name) {
    n in t && t[n].Symlink? && !t[n].resolves
  }

  /** `Path.suffix in (".yaml", ".yml", ".json")`; a bare dotfile has no suffix. */
  predicate IsManifest(n: Name) {
    HasSuffix(n, ".yaml") || HasSuffix(n, ".yml") || HasSuffix(n, ".json")
  }

  predicate HasSuffix(n: Name, suffix: string) {
    |n| > |suffix| && n[|n| - |suffix|..] == suffix
  }

  function Restrict(t: Tree, names: set<Name>): (r: Tree)
    ensures r.Keys == t.Keys * names
  {
    map n | n in t && n in names :: t[n]
  }

  /** A manifest is what has something before one of the three suffixes kubectl takes. */
  lemma ManifestsAreNamed(n: Name)
    ensures IsManifest(n) <==>
      exists stem: string :: stem != "" && (n == stem + ".yaml" || n == stem + ".yml" || n == stem + ".json")
  {
    if |n| > 5 && n[|n| - 5..] == ".yaml" {
      assert n == n[..|n| - 5] + ".yaml";
    }
    if |n| > 5 && n[|n| - 5..] == ".json" {
      assert n == n[..|n| - 5] + ".json";
    }
    if |n| > 4 && n[|n| - 4..] == ".yml" {
      assert n == n[..|n| - 4] + ".yml";
    }
    if stem: string :| stem != "" && (n == stem + ".yaml" || n == stem + ".yml" || n == stem + ".json") {
      assert n[|stem|..] == ".yaml" || n[|stem|..] == ".yml" || n[|stem|..] == ".json";
    }
  }
}
