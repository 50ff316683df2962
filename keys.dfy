/** Work-queue keys: "namespace/name", or a bare "name" for an object in the
    empty namespace. */
module Keys {
  import opened Types

  /** The position of the first '/' in `s`. */
  function FirstSlash(s: string): (i: nat)
    requires '/' in s
    ensures i < |s| && s[i] == '/'
    ensures '/' !in s[..i]
  {
    if s[0] == '/' then 0 else 1 + FirstSlash(s[1..])
  }

  /** True when `s` holds at least two '/' characters. */
  ghost predicate TwoSlashes(s: string)
  {
    exists i, j :: 0 <= i < j < |s| && s[i] == '/' && s[j] == '/'
  }

  /** Splits a key into namespace and name: a key without '/' is a name in
      the empty namespace, a key with one '/' is split there, and any other
      key is malformed. */
  function SplitMetaNamespaceKey(key: string): (r: Option<ObjectMeta>)
    ensures r.None? <==> TwoSlashes(key)
    ensures '/' !in key ==> r == Some(ObjectMeta("", key))
    ensures r.Some? ==> '/' !in r.value.namespace && '/' !in r.value.name
    ensures r.Some? && '/' in key ==> key == r.value.namespace + "/" + r.value.name
  {
    if '/' !in key then
      Some(ObjectMeta("", key))
    else
      var i := FirstSlash(key);
      var rest := key[i + 1..];
      if '/' in rest then
        assert TwoSlashes(key) by {
          var j :| 0 <= j < |rest| && rest[j] == '/';
          assert key[i + 1 + j] == '/';
        }
        None
      else
        assert key == key[..i] + "/" + rest;
        assert forall a :: 0 <= a < i ==> key[a] != '/' by {
          forall a | 0 <= a < i ensures key[a] != '/' { assert key[a] == key[..i][a]; }
        }
        assert forall a :: i < a < |key| ==> key[a] != '/' by {
          forall a | i < a < |key| ensures key[a] != '/' { assert key[a] == rest[a - i - 1]; }
        }
        Some(ObjectMeta(key[..i], rest))
  }

  /** The key under which an object is queued. */
  function MetaNamespaceKey(m: ObjectMeta): string
  {
    if m.namespace == "" then m.name else m.namespace + "/" + m.name
  }

  /** Splitting the key of an object gives back its identity, whenever
      neither its namespace nor its name holds a '/'. */
  lemma SplitJoinRoundTrip(m: ObjectMeta)
    requires '/' !in m.namespace && '/' !in m.name
    ensures SplitMetaNamespaceKey(MetaNamespaceKey(m)) == Some(m)
  {
    var key := MetaNamespaceKey(m);
    if m.namespace != "" {
      var n := |m.namespace|;
      assert key[n] == '/';
      assert forall a :: 0 <= a < n ==> key[a] == m.namespace[a];
      assert forall a :: n < a < |key| ==> key[a] == m.name[a - n - 1];
      assert !TwoSlashes(key);
      var r := SplitMetaNamespaceKey(key).value;
      var k := |r.namespace|;
      assert key[k] == '/';
      assert k == n;
      assert r.namespace == key[..n] == m.namespace;
      assert r.name == key[n + 1..] == m.name;
    }
  }
}
