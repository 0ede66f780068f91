/** The names of conditions (internal/replica/utils.go), which the deletion filter uses as keys. */
module ConditionNames {
  import opened Refs
  import Targets
  import Steps

  const SOURCE_PREFIX := "Source_"
  const TARGET_PREFIX := "Target_"
  const CLUSTER_PREFIX := "Cluster_"
  const META := "Meta"
  const TEMPLATING_ERROR := "TemplatingError"
  const HOSTING_NAME := "HostingPlatformCluster"

  const LIMIT: nat := 300

  function TrimPrefix(s: string, c: char): string {
    if s != [] && s[0] == c then s[1..] else s
  }

  function TrimSuffix(s: string, c: char): string {
    if s != [] && s[|s| - 1] == c then s[..|s| - 1] else s
  }

  function KindName(gvk: GVK): string {
    TrimSuffix(gvk.kind + "." + gvk.version + "." + gvk.group, '.')
  }

  function ObjectName(namespace: string, name: string): string {
    TrimPrefix(namespace + "." + name, '.')
  }

  function ClusterName(cluster: ObjectReference): string {
    if cluster == HOSTING then HOSTING_NAME else ObjectName(cluster.namespace, cluster.name)
  }

  /** Names up to the limit stay as they are; longer ones are cut by code that is not part of this model. */
  function Shortened(cut: string -> string, s: string): string {
    if |s| <= LIMIT then s else cut(s)
  }

  function FullTargetCondition(l: Location): string {
    TARGET_PREFIX + ClusterName(l.cluster) + "_" + ObjectName(l.ref.namespace, l.ref.name) + "_" + KindName(l.ref.gvk)
  }

  function TargetCondition(cut: string -> string, l: Location): string {
    Shortened(cut, FullTargetCondition(l))
  }

  function FullClusterCondition(cluster: ObjectReference): string {
    CLUSTER_PREFIX + ClusterName(cluster)
  }

  /** The name for the hosting cluster is never cut. */
  function ClusterCondition(cut: string -> string, cluster: ObjectReference): string {
    if cluster == HOSTING then CLUSTER_PREFIX + HOSTING_NAME else Shortened(cut, FullClusterCondition(cluster))
  }

  function FullSourceCondition(ref: TypedRef): string {
    SOURCE_PREFIX + ObjectName(ref.namespace, ref.name) + "_" + KindName(ref.gvk)
  }

  // ---- What Kubernetes says about names ----

  predicate NamespaceOk(s: string) {
    '.' !in s && '_' !in s
  }

  predicate GvkOk(gvk: GVK) {
    '.' !in gvk.kind && '.' !in gvk.version && (gvk.group != "" ==> gvk.group[|gvk.group| - 1] != '.')
  }

  predicate RefOk(ref: TypedRef) {
    GvkOk(ref.gvk) && NamespaceOk(ref.namespace) && '_' !in ref.name
  }

  /** Cluster resources live in a namespace. */
  predicate ClusterOk(cluster: ObjectReference) {
    cluster == HOSTING || (NamespaceOk(cluster.namespace) && cluster.namespace != "" && '_' !in cluster.name)
  }

  // ---- The parts of a name ----

  lemma KindNameShape(gvk: GVK)
    requires GvkOk(gvk)
    ensures KindName(gvk) == gvk.kind + ['.'] + (if gvk.group == "" then gvk.version else gvk.version + ['.'] + gvk.group)
  {
    var full := gvk.kind + "." + gvk.version + "." + gvk.group;
    if gvk.group == "" {
      assert full[|full| - 1] == '.';
      assert full[..|full| - 1] == gvk.kind + ['.'] + gvk.version;
    } else {
      assert full[|full| - 1] == gvk.group[|gvk.group| - 1];
      assert full == gvk.kind + ['.'] + (gvk.version + ['.'] + gvk.group);
    }
  }

  lemma KindNameIsInjective(a: GVK, b: GVK)
    requires GvkOk(a) && GvkOk(b)
    ensures KindName(a) == KindName(b) <==> a == b
  {
    if KindName(a) == KindName(b) {
      KindNameShape(a);
      KindNameShape(b);
      var ra := if a.group == "" then a.version else a.version + ['.'] + a.group;
      var rb := if b.group == "" then b.version else b.version + ['.'] + b.group;
      hide KindName;
      SplitUnique(a.kind, ra, b.kind, rb, '.');
      assert a.group != "" ==> ra[|a.version|] == '.';
      assert b.group != "" ==> rb[|b.version|] == '.';
      assert a.group == "" <==> b.group == "";
      if a.group != "" {
        SplitUnique(a.version, a.group, b.version, b.group, '.');
      }
    }
  }

  lemma ObjectNameShape(namespace: string, name: string)
    requires NamespaceOk(namespace)
    ensures ObjectName(namespace, name) == if namespace == "" then name else namespace + ['.'] + name
  {
    var full := namespace + "." + name;
    if namespace == "" {
      assert full == ['.'] + name;
      assert full[1..] == name;
    } else {
      assert full[0] == namespace[0];
      assert namespace[0] in namespace;
    }
  }

  /** Two objects share a name exactly if they are the same or one is cluster-scoped and named like the other with its namespace. */
  lemma ObjectNamesEqual(ns1: string, n1: string, ns2: string, n2: string)
    requires NamespaceOk(ns1) && NamespaceOk(ns2)
    ensures ObjectName(ns1, n1) == ObjectName(ns2, n2) <==>
            || (ns1 == ns2 && n1 == n2)
            || (ns1 == "" && ns2 != "" && n1 == ns2 + "." + n2)
            || (ns2 == "" && ns1 != "" && n2 == ns1 + "." + n1)
  {
    ObjectNameShape(ns1, n1);
    ObjectNameShape(ns2, n2);
    hide ObjectName;
    if ObjectName(ns1, n1) == ObjectName(ns2, n2) && ns1 != "" && ns2 != "" {
      SplitUnique(ns1, n1, ns2, n2, '.');
    }
  }

  lemma ObjectNamePlain(namespace: string, name: string)
    requires NamespaceOk(namespace) && '_' !in name
    ensures '_' !in ObjectName(namespace, name)
  {
    ObjectNameShape(namespace, name);
  }

  lemma ClusterNamePlain(cluster: ObjectReference)
    requires ClusterOk(cluster)
    ensures '_' !in ClusterName(cluster)
    ensures '.' in ClusterName(cluster) <==> cluster != HOSTING
  {
    if cluster != HOSTING {
      ObjectNamePlain(cluster.namespace, cluster.name);
      ObjectNameShape(cluster.namespace, cluster.name);
      assert ClusterName(cluster)[|cluster.namespace|] == '.';
    }
  }

  lemma ClusterNameIsInjective(a: ObjectReference, b: ObjectReference)
    requires ClusterOk(a) && ClusterOk(b)
    ensures ClusterName(a) == ClusterName(b) <==> a == b
  {
    ClusterNamePlain(a);
    ClusterNamePlain(b);
    if a != HOSTING && b != HOSTING {
      ObjectNamesEqual(a.namespace, a.name, b.namespace, b.name);
    }
  }

  // ---- Whole names ----

  lemma TargetParts(l: Location)
    ensures FullTargetCondition(l) ==
            TARGET_PREFIX + (ClusterName(l.cluster) + ['_'] + (ObjectName(l.ref.namespace, l.ref.name) + ['_'] + KindName(l.ref.gvk)))
  {
    hide ClusterName, ObjectName, KindName;
  }

  lemma DropPrefix(prefix: string, a: string, b: string)
    requires prefix + a == prefix + b
    ensures a == b
  {
    assert a == (prefix + a)[|prefix|..];
    assert b == (prefix + b)[|prefix|..];
  }

  /** Equal target condition names mean the same cluster and the same object, or two objects of one kind on one cluster of which
      exactly one is cluster-scoped and named like the other with its namespace. A kind is either namespaced or not, so that never happens. */
  lemma TargetNamesEqual(a: Location, b: Location)
    requires ClusterOk(a.cluster) && ClusterOk(b.cluster) && RefOk(a.ref) && RefOk(b.ref)
    ensures FullTargetCondition(a) == FullTargetCondition(b) <==>
            || a == b
            || (&& a.cluster == b.cluster && a.ref.gvk == b.ref.gvk
                && (|| (a.ref.namespace == "" && b.ref.namespace != "" && a.ref.name == b.ref.namespace + "." + b.ref.name)
                    || (b.ref.namespace == "" && a.ref.namespace != "" && b.ref.name == a.ref.namespace + "." + a.ref.name)))
  {
    TargetParts(a);
    TargetParts(b);
    ClusterNamePlain(a.cluster);
    ClusterNamePlain(b.cluster);
    ObjectNamePlain(a.ref.namespace, a.ref.name);
    ObjectNamePlain(b.ref.namespace, b.ref.name);
    ObjectNamesEqual(a.ref.namespace, a.ref.name, b.ref.namespace, b.ref.name);
    hide FullTargetCondition, ClusterName, ObjectName, KindName;
    if FullTargetCondition(a) == FullTargetCondition(b) {
      var ra := ObjectName(a.ref.namespace, a.ref.name) + ['_'] + KindName(a.ref.gvk);
      var rb := ObjectName(b.ref.namespace, b.ref.name) + ['_'] + KindName(b.ref.gvk);
      DropPrefix(TARGET_PREFIX, ClusterName(a.cluster) + ['_'] + ra, ClusterName(b.cluster) + ['_'] + rb);
      SplitUnique(ClusterName(a.cluster), ra, ClusterName(b.cluster), rb, '_');
      SplitUnique(ObjectName(a.ref.namespace, a.ref.name), KindName(a.ref.gvk), ObjectName(b.ref.namespace, b.ref.name), KindName(b.ref.gvk), '_');
      ClusterNameIsInjective(a.cluster, b.cluster);
      KindNameIsInjective(a.ref.gvk, b.ref.gvk);
    }
  }

  /** Below the cut, target condition names identify the cluster and the object. */
  lemma TargetConditionIsInjective(cut: string -> string, namespaced: GVK -> bool, a: Location, b: Location)
    requires ClusterOk(a.cluster) && ClusterOk(b.cluster) && RefOk(a.ref) && RefOk(b.ref)
    requires a.ref.namespace != "" <==> namespaced(a.ref.gvk)
    requires b.ref.namespace != "" <==> namespaced(b.ref.gvk)
    requires |FullTargetCondition(a)| <= 300 && |FullTargetCondition(b)| <= 300
    ensures TargetCondition(cut, a) == TargetCondition(cut, b) <==> a == b
  {
    TargetNamesEqual(a, b);
    hide FullTargetCondition;
  }

  lemma ClusterConditionIsInjective(cut: string -> string, a: ObjectReference, b: ObjectReference)
    requires ClusterOk(a) && ClusterOk(b)
    requires |FullClusterCondition(a)| <= 300 && |FullClusterCondition(b)| <= 300
    ensures ClusterCondition(cut, a) == ClusterCondition(cut, b) <==> a == b
  {
    ClusterNameIsInjective(a, b);
    hide ClusterName;
    if ClusterCondition(cut, a) == ClusterCondition(cut, b) {
      assert FullClusterCondition(a) == FullClusterCondition(b) by {
        assert ClusterName(HOSTING) == HOSTING_NAME;
      }
      DropPrefix(CLUSTER_PREFIX, ClusterName(a), ClusterName(b));
    }
  }

  /** What identifies a target well enough for its name to do so. */
  ghost predicate Identified(namespaced: GVK -> bool, l: Location) {
    && ClusterOk(l.cluster) && RefOk(l.ref)
    && (l.ref.namespace != "" <==> namespaced(l.ref.gvk))
    && |FullTargetCondition(l)| <= LIMIT
  }

  /** The deletion filter skips exactly the resources reported on: looking up the names of the reported keys finds l if and only if l is one of them. */
  lemma FilterSkipsExactlyTheReported(cfg: Targets.Config, cut: string -> string, namespaced: GVK -> bool,
                                      p: Steps.Pass, keys: set<Location>, l: Location)
    requires forall k :: cfg.targetCondition(k) == TargetCondition(cut, k)
    requires Identified(namespaced, l) && forall k :: k in keys ==> Identified(namespaced, k)
    requires forall c :: c in p.conditions && c.TargetCondition? ==> exists k :: k in keys && c.name == cfg.targetCondition(k)
    requires forall k :: k in keys ==> exists c :: c in p.conditions && c.TargetCondition? && c.name == cfg.targetCondition(k)
    ensures Steps.Reported(cfg, p, l) <==> l in keys
  {
    hide TargetCondition, FullTargetCondition, ClusterOk, RefOk;
    if Steps.Reported(cfg, p, l) {
      var c :| c in p.conditions && c.TargetCondition? && c.name == cfg.targetCondition(l);
      var k :| k in keys && c.name == cfg.targetCondition(k);
      TargetConditionIsInjective(cut, namespaced, k, l);
    }
  }

  /** The prefix tells the kinds of conditions apart, so the deletion filter sorts them as they were made. */
  lemma PrefixesSeparate(l: Location, cluster: ObjectReference, source: TypedRef)
    ensures "Target_" <= FullTargetCondition(l) && !("Cluster_" <= FullTargetCondition(l))
    ensures "Cluster_" <= FullClusterCondition(cluster) && !("Target_" <= FullClusterCondition(cluster))
    ensures "Source_" <= FullSourceCondition(source) && !("Target_" <= FullSourceCondition(source)) && !("Cluster_" <= FullSourceCondition(source))
    ensures !("Target_" <= META) && !("Cluster_" <= META)
    ensures !("Target_" <= TEMPLATING_ERROR) && !("Cluster_" <= TEMPLATING_ERROR)
  {
    TargetParts(l);
    assert FullTargetCondition(l)[0] == 'T';
    assert FullClusterCondition(cluster)[0] == 'C';
    assert FullSourceCondition(source)[0] == 'S';
    assert TEMPLATING_ERROR[1] == 'e';
    hide ClusterName, ObjectName, KindName;
  }

  /** Without a namespace of its own a Cluster could share the name of the hosting cluster. */
  lemma HostingNameCollides()
    ensures ClusterName(ObjectReference("", "HostingPlatformCluster")) == ClusterName(HOSTING)
  {
    ObjectNameShape("", HOSTING_NAME);
  }
}
