/** The symbol registry: planner symbols resolved to object handles. */
module Registry {
  import opened Kitchen

  /** A planner symbol. */
  type Symbol = string

  /** The result of a lookup: the handle(s), or the key that raised KeyError. */
  datatype Lookup<T> = Found(value: T) | Missing(key: Symbol)

  /** `symbol_to_obj[s]`: the registered handle, or a KeyError naming `s`. */
  function Resolve(reg: map<Symbol, Body>, s: Symbol): (r: Lookup<Body>)
    ensures r.Found? <==> s in reg
    ensures r.Found? ==> r.value == reg[s]
    ensures r.Missing? ==> r.key == s
  {
    if s in reg then Found(reg[s]) else Missing(s)
  }

  /**
   * Several lookups one after the other, as a skill does them: every handle
   * when every symbol is registered, otherwise the KeyError of the first
   * unregistered symbol in the list.
   */
  function ResolveAll(reg: map<Symbol, Body>, syms: seq<Symbol>): (r: Lookup<seq<Body>>)
    ensures r.Found? <==> forall i | 0 <= i < |syms| :: syms[i] in reg
    ensures r.Found? ==> |r.value| == |syms| && forall i | 0 <= i < |syms| :: r.value[i] == reg[syms[i]]
    ensures r.Missing? ==> forall k | 0 <= k < |syms| && syms[k] !in reg ::
      (forall j | 0 <= j < k :: syms[j] in reg) ==> r.key == syms[k]
  {
    if syms == [] then Found([])
    else
      match Resolve(reg, syms[0])
      case Missing(key) => Missing(key)
      case Found(h) =>
        match ResolveAll(reg, syms[1..])
        case Missing(key) => Missing(key)
        case Found(hs) => Found([h] + hs)
  }

  /**
   * `dict(zip(syms, objs))`: pairs up the two lists as far as the shorter
   * reaches; a symbol that occurs twice keeps its last handle.
   */
  function ZipDict(syms: seq<Symbol>, objs: seq<Body>): (m: map<Symbol, Body>)
    ensures forall s :: s in m <==> s in syms[..ZipLength(syms, objs)]
    ensures forall i | 0 <= i < ZipLength(syms, objs) ::
      (forall j | i < j < ZipLength(syms, objs) :: syms[j] != syms[i]) ==> m[syms[i]] == objs[i]
  {
    var n := ZipLength(syms, objs);
    PairsToDict(syms[..n], objs[..n])
  }

  /** How many pairs `zip` produces: the length of the shorter list. */
  function ZipLength(syms: seq<Symbol>, objs: seq<Body>): (n: nat)
    ensures n <= |syms| && n <= |objs|
    ensures n == |syms| || n == |objs|
  {
    if |syms| < |objs| then |syms| else |objs|
  }

  /** Inserts the pairs `(syms[i], objs[i])` in order into an empty dictionary. */
  function PairsToDict(syms: seq<Symbol>, objs: seq<Body>): (m: map<Symbol, Body>)
    requires |syms| == |objs|
    ensures forall s :: s in m <==> s in syms
    ensures forall i | 0 <= i < |syms| ::
      (forall j | i < j < |syms| :: syms[j] != syms[i]) ==> m[syms[i]] == objs[i]
  {
    if |syms| == 0 then map[]
    else
      var n := |syms| - 1;
      assert syms == syms[..n] + [syms[n]];
      PairsToDict(syms[..n], objs[..n])[syms[n] := objs[n]]
  }
}
