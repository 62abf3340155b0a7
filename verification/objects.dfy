/** The Java values the map producer handles: header values, message bodies,
    cache keys and cache values are all plain `Object`s in the source, so they
    share one datatype here. */
module Objects {

  datatype Option<+T> = None | Some(value: T)

  /** A Java object, in the shapes the producer can meet. */
  datatype Obj =
    | Null
    | Str(chars: string)
    | Num(n: int)
    /** a `java.util.Set`, as OBJECT_ID carries it for GET_ALL */
    | SetOf(elems: set<Obj>)
    /** a `java.util.Map`, as `IMap.getAll` returns it */
    | MapOf(entries: map<Obj, Obj>)
    /** the `java.util.Collection` returned by `IMap.values`: one element per
        entry of `entries`, namely that entry's value */
    | ValuesOf(entries: map<Obj, Obj>)

  /** The leading characters `String.trim()` drops: those at most U+0020. */
  function TrimStart(s: string): (r: string)
    ensures |r| <= |s| && r == s[|s| - |r|..]
    ensures r == [] || r[0] > ' '
  {
    if |s| > 0 && s[0] <= ' ' then TrimStart(s[1..]) else s
  }

  /** The trailing characters `String.trim()` drops. */
  function TrimEnd(s: string): (r: string)
    ensures |r| <= |s| && r == s[..|r|]
    ensures r == [] || r[|r| - 1] > ' '
  {
    if |s| > 0 && s[|s| - 1] <= ' ' then TrimEnd(s[..|s| - 1]) else s
  }

  /** `String.trim()`. */
  function Trim(s: string): (r: string)
    ensures |r| <= |s|
    ensures r == [] || (r[0] > ' ' && r[|r| - 1] > ' ')
  {
    TrimEnd(TrimStart(s))
  }

  lemma {:induction false} TrimStartEmpty(s: string)
    ensures TrimStart(s) == [] <==> forall i :: 0 <= i < |s| ==> s[i] <= ' '
    decreases |s|
  {
    if |s| > 0 && s[0] <= ' ' {
      TrimStartEmpty(s[1..]);
      assert forall i :: 1 <= i < |s| ==> s[i] == s[1..][i - 1];
    }
  }

  lemma {:induction false} TrimEndKeepsFirst(s: string)
    requires |s| > 0 && s[0] > ' '
    ensures TrimEnd(s) != []
    decreases |s|
  {
    if s[|s| - 1] <= ' ' {
      TrimEndKeepsFirst(s[..|s| - 1]);
    }
  }

  /** `trim()` empties a string exactly when every character is at most
      U+0020. */
  lemma TrimEmpty(s: string)
    ensures Trim(s) == [] <==> forall i :: 0 <= i < |s| ==> s[i] <= ' '
  {
    TrimStartEmpty(s);
    if TrimStart(s) != [] {
      TrimEndKeepsFirst(TrimStart(s));
    }
  }

  /** `String.trim()` leaves nothing: every character is at most U+0020. */
  predicate Blank(s: string)
    ensures Blank(s) <==> Trim(s) == ""
  {
    TrimEmpty(s);
    forall i :: 0 <= i < |s| ==> s[i] <= ' '
  }

  /** Camel's `ObjectHelper.isEmpty`: null, a blank string, or an empty
      collection or map. */
  predicate IsEmpty(o: Obj)
    ensures o.Null? ==> IsEmpty(o)
    ensures o.Num? ==> !IsEmpty(o)
    ensures o.Str? ==> (IsEmpty(o) <==> Trim(o.chars) == "")
    ensures o.SetOf? ==> (IsEmpty(o) <==> |o.elems| == 0)
    ensures o.MapOf? || o.ValuesOf? ==> (IsEmpty(o) <==> |o.entries| == 0)
  {
    match o
    case Null => true
    case Str(s) => Blank(s)
    case Num(_) => false
    case SetOf(s) => s == {}
    case MapOf(m) => m == map[]
    case ValuesOf(m) => m == map[]
  }
}
