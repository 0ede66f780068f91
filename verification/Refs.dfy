/** Names of clusters and of the objects that live on them. */
module Refs {

  datatype Option<+T> = None | Some(value: T)

  /** Group, version and kind of an object. */
  datatype GVK = GVK(group: string, version: string, kind: string)

  /** Reference to a Cluster resource. */
  datatype ObjectReference = ObjectReference(namespace: string, name: string)

  /** The empty reference stands for the hosting platform cluster. */
  const HOSTING := ObjectReference("", "")

  /** Identity of an object within one cluster; the namespace is "" for a cluster-scoped object. */
  datatype TypedRef = TypedRef(gvk: GVK, namespace: string, name: string)

  /** Identity of an object over all clusters. */
  datatype Location = Location(cluster: ObjectReference, ref: TypedRef)

  /** Position of the first x in s, or |s| if there is none. */
  function IndexOf<T(==)>(s: seq<T>, x: T): (i: nat)
    ensures i <= |s|
    ensures i < |s| ==> s[i] == x
    ensures forall k :: 0 <= k < i ==> s[k] != x
    ensures i < |s| <==> x in s
  {
    if s == [] || s[0] == x then 0 else IndexOf(s[1..], x) + 1
  }

  /** The first separator splits a text in one way. */
  lemma SplitUnique(a: string, b: string, c: string, d: string, sep: char)
    requires sep !in a && sep !in c && a + [sep] + b == c + [sep] + d
    ensures a == c && b == d
  {
    var t := a + [sep] + b;
    assert t[|a|] == sep && t[|c|] == sep;
    assert forall i :: 0 <= i < |a| ==> t[i] == a[i];
    assert forall i :: 0 <= i < |c| ==> t[i] == c[i];
    assert |a| == |c|;
    assert a == t[..|a|] && c == t[..|c|];
    assert b == t[|a| + 1..] && d == t[|c| + 1..];
  }

  ghost predicate NoDuplicates<T>(s: seq<T>) {
    forall i, j :: 0 <= i < j < |s| ==> s[i] != s[j]
  }
}
