/** client/hostname.go: the host-name listing, its query options and its domain order. */
module Hostnames {
  import opened Wrappers
  import opened Text
  import opened QueryString
  import opened Api
  import ClientUtil
  import Sorting

  /** Hostnames.Less: ordered by domain. */
  function DomainLess(a: Hostname, b: Hostname): (r: bool)
    ensures a.domain == b.domain ==> !r
    ensures a.domain != b.domain ==> (r <==> !Less(b.domain, a.domain))
  {
    LessIrreflexive(a.domain);
    LessTrichotomy(a.domain, b.domain);
    if Less(a.domain, b.domain) then
      LessAsymmetric(a.domain, b.domain);
      true
    else false
  }

  /** The domain order is fit for sorting. */
  lemma DomainLessIsStrictWeakOrder()
    ensures Sorting.StrictWeakOrder(DomainLess)
  {
    forall x: Hostname
      ensures !DomainLess(x, x)
    {
      LessIrreflexive(x.domain);
    }
    forall x: Hostname, y: Hostname, z: Hostname | DomainLess(x, y) && DomainLess(y, z)
      ensures DomainLess(x, z)
    {
      LessTransitive(x.domain, y.domain, z.domain);
    }
    forall x: Hostname, y: Hostname, z: Hostname | !DomainLess(x, y) && !DomainLess(y, z)
      ensures !DomainLess(x, z)
    {
      LessTrichotomy(x.domain, y.domain);
      LessTrichotomy(y.domain, z.domain);
      if DomainLess(x, z) {
        if x.domain == y.domain {
          LessAsymmetric(y.domain, z.domain);
        } else {
          LessTransitive(x.domain, z.domain, y.domain);
          LessAsymmetric(x.domain, y.domain);
        }
      }
    }
  }

  /** Sorting a host-name list leaves it in ascending domain order with the same entries. */
  method SortByDomain(a: array<Hostname>)
    modifies a
    ensures Sorting.SortedBy(a[..], DomainLess)
    ensures forall i, j :: 0 <= i < j < a.Length ==> !Less(a[j].domain, a[i].domain)
    ensures multiset(a[..]) == multiset(old(a[..]))
  {
    DomainLessIsStrictWeakOrder();
    Sorting.Sort(a, DomainLess);
  }

  /** The query options of a host-name listing. */
  datatype HostnameOptions = HostnameOptions(
    appServer: seq<string>,
    runtime: seq<string>,
    environment: seq<string>,
    host: seq<string>,
    node: seq<string>,
    disableMerge: bool)

  /** The option struct as its json-tagged fields, in declaration order. */
  function Fields(o: HostnameOptions): seq<Field>
  {
    [Field("appServer", Strings(o.appServer)), Field("runtime", Strings(o.runtime)),
     Field("environment", Strings(o.environment)), Field("host", Strings(o.host)),
     Field("node", Strings(o.node)), Field("disableMerge", Bool(o.disableMerge))]
  }

  /** The path of a host-name listing: the resource followed by the encoded options. */
  function QueryPath(o: HostnameOptions): string
  {
    "resources/./hostNames?" + CommandURL(Fields(o), true)
  }

  /** The query parameters in order: appServer, runtime, environment, host, node (each only when
      the list is non-empty, comma-joined) and disableMerge, which is always present and last. */
  lemma QueryParameters(o: HostnameOptions)
    ensures Pieces(Fields(o), true)
            == ((if o.appServer != [] then ["appServer" + "=" + TrimRight(Join(o.appServer, ","), ',')] else [])
             + (if o.runtime != [] then ["runtime" + "=" + TrimRight(Join(o.runtime, ","), ',')] else [])
             + (if o.environment != [] then ["environment" + "=" + TrimRight(Join(o.environment, ","), ',')] else []))
             + ((if o.host != [] then ["host" + "=" + TrimRight(Join(o.host, ","), ',')] else [])
             + (if o.node != [] then ["node" + "=" + TrimRight(Join(o.node, ","), ',')] else [])
             + ["disableMerge" + "=" + BoolString(o.disableMerge)])
  {
    var fs := Fields(o);
    PiecesOfSix(fs[0], fs[1], fs[2], fs[3], fs[4], fs[5], true);
  }

  /** With no filter at all, only the merge flag is sent. */
  lemma DefaultQuery(disableMerge: bool)
    ensures QueryPath(HostnameOptions([], [], [], [], [], disableMerge))
            == "resources/./hostNames?" + "disableMerge" + "=" + BoolString(disableMerge)
  {
    var o := HostnameOptions([], [], [], [], [], disableMerge);
    QueryParameters(o);
    var p := "disableMerge" + "=" + BoolString(disableMerge);
    assert Pieces(Fields(o), true) == [p];
    assert Join([p], "&") == p;
    assert p[|p| - 1] == 'e';
  }

  /** GetHostname: one GET of the listing path; a transport error comes back wrapped as
      "Error in rest call: ...", otherwise the server's list is returned. */
  method GetHostname(server: Server, h0: seq<Call>, o: HostnameOptions) returns (r: Result<seq<Hostname>>, h: seq<Call>)
    ensures h == h0 + [Get(QueryPath(o))]
    ensures server.hostnames(h).Err? ==> r == Err("Error in rest call: " + server.hostnames(h).msg)
    ensures server.hostnames(h).Ok? ==> r == server.hostnames(h)
  {
    var query := ClientUtil.BuildCommandURL(Fields(o));
    var url := "resources/./hostNames?" + query;
    h := h0 + [Get(url)];
    var answer := server.hostnames(h);
    if answer.Err? {
      return Err("Error in rest call: " + answer.msg), h;
    }
    r := answer;
  }
}
