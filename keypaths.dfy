/**
 * Storage key prefixes of the simple strategy. A resource `(group, resource)`
 * is stored under `prefix + "/" + group + "/" + resource`; this module gives
 * that join, its inverse, and proves that the two undo each other, so that
 * two resources whose groups contain no '/' never share a key prefix.
 * (API group names are DNS subdomains and cannot contain '/'.)
 */
module KeyPaths {
  import opened Wrappers
  import opened Storage

  /** The key prefix of a resource under the configured storage prefix. */
  function JoinResourcePrefix(prefix: string, gr: GroupResource): (key: string)
    ensures |key| == |prefix| + |gr.group| + |gr.resource| + 2
    ensures key[..|prefix| + 1] == prefix + "/" && key[|key| - |gr.resource| - 1..] == "/" + gr.resource
  {
    prefix + "/" + gr.group + "/" + gr.resource
  }

  /** The position of the first occurrence of `c` in `s`, if any. */
  function IndexOf(s: string, c: char): (r: Option<nat>)
    ensures r.Some? ==> r.value < |s| && s[r.value] == c && c !in s[..r.value]
    ensures r.None? <==> c !in s
  {
    if s == [] then None
    else if s[0] == c then Some(0)
    else
      match IndexOf(s[1..], c)
      case None => None
      case Some(i) => Some(i + 1)
  }

  /**
   * Reads a key prefix back into the resource it names: the key must start
   * with `prefix + "/"`, the group runs up to the next '/', and the resource
   * is everything after it.
   */
  function SplitResourcePrefix(prefix: string, key: string): (r: Option<GroupResource>)
    ensures r.Some? ==> '/' !in r.value.group
  {
    if |key| <= |prefix| || key[..|prefix|] != prefix || key[|prefix|] != '/' then None
    else
      var rest := key[|prefix| + 1..];
      match IndexOf(rest, '/')
      case None => None
      case Some(i) => Some(GroupResource(rest[..i], rest[i + 1..]))
  }

  /** Splitting a joined key prefix gives back the resource, when its group has no '/'. */
  lemma SplitJoin(prefix: string, gr: GroupResource)
    requires '/' !in gr.group
    ensures SplitResourcePrefix(prefix, JoinResourcePrefix(prefix, gr)) == Some(gr)
  {
    var key := JoinResourcePrefix(prefix, gr);
    var rest := gr.group + "/" + gr.resource;
    assert key[..|prefix|] == prefix;
    assert key[|prefix|] == '/';
    assert key[|prefix| + 1..] == rest;
    assert rest[..|gr.group|] == gr.group;
    assert rest[|gr.group| + 1..] == gr.resource;
    var i := IndexOf(rest, '/');
    assert i == Some(|gr.group|) by {
      assert rest[|gr.group|] == '/';
      assert rest[..|gr.group|] == gr.group;
    }
  }

  /** Joining the resource read back from a key prefix rebuilds that key prefix. */
  lemma JoinSplit(prefix: string, key: string)
    requires SplitResourcePrefix(prefix, key).Some?
    ensures JoinResourcePrefix(prefix, SplitResourcePrefix(prefix, key).value) == key
  {
  }

  /** Distinct resources whose groups contain no '/' get distinct key prefixes. */
  lemma JoinInjective(prefix: string, a: GroupResource, b: GroupResource)
    requires '/' !in a.group && '/' !in b.group
    requires JoinResourcePrefix(prefix, a) == JoinResourcePrefix(prefix, b)
    ensures a == b
  {
    SplitJoin(prefix, a);
    SplitJoin(prefix, b);
  }
}
