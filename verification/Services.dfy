/** The metrics Service of a role group, on Go's maps: which of them are shared and which are copies. */
module Services {
  import opened Options
  import opened Texts
  import Encodings
  import Urls
  import Oidc
  import opened Roles

  type Pairs = map<string, string>

  class StringMap {
    var pairs: Pairs

    constructor ()
      ensures pairs == map[]
    {
      pairs := map[];
    }
  }

  const SCRAPE := "prometheus.io/scrape"
  const SCRAPE_PATH := "prometheus.io/path"
  const SCRAPE_PORT := "prometheus.io/port"
  const SCRAPE_SCHEME := "prometheus.io/scheme"

  // GetMetricsPort: None for a name that is no role's.
  function PortOfRole(roleName: string): Option<int> {
    if roleName == RoleName(Master) then Some(MetricsPort(Master))
    else if roleName == RoleName(RegionServer) then Some(MetricsPort(RegionServer))
    else if roleName == RoleName(RestServer) then Some(MetricsPort(RestServer))
    else None
  }

  class MetricsService {
    var port: int
    var labels: StringMap
    var selector: StringMap
    var annotations: StringMap

    constructor (port: int, labels: StringMap, selector: StringMap, annotations: StringMap)
      ensures this.port == port && this.labels == labels && this.selector == selector && this.annotations == annotations
    {
      this.port, this.labels, this.selector, this.annotations := port, labels, selector, annotations;
    }
  }

  // The keys of a map are walked in any order.
  method CopyMap(source: StringMap) returns (copy: StringMap)
    ensures fresh(copy) && copy.pairs == source.pairs
  {
    copy := new StringMap();
    var keys := source.pairs.Keys;
    while keys != {}
      invariant keys <= source.pairs.Keys && fresh(copy) && source.pairs == old(source.pairs)
      invariant copy.pairs == map k | k in source.pairs && k !in keys :: source.pairs[k]
      decreases keys
    {
      var k :| k in keys;
      copy.pairs := copy.pairs[k := source.pairs[k]];
      keys := keys - {k};
    }
    assert copy.pairs == source.pairs;
  }

  /**
   The Service selects by the group's own label map, which stays as it was; the scrape label and the
   annotations go into copies.  None: the role name is unknown, and the code panics.
   */
  method NewMetricsService(roleName: string, labels: StringMap, annotations: StringMap)
    returns (service: Option<MetricsService>)
    ensures service.Some? <==> exists r :: roleName == RoleName(r)
    ensures service.Some? ==>
              var s := service.value;
              && fresh(s) && fresh(s.labels) && fresh(s.annotations) && s.labels != s.annotations
              && s.selector == labels
              && s.labels.pairs == labels.pairs[SCRAPE := "true"]
              && s.annotations.pairs == Annotated(annotations.pairs, s.port)
              && forall r :: roleName == RoleName(r) ==> s.port == MetricsPort(r)
  {
    RoleNameIdentifies();
    var port := PortOfRole(roleName);
    if port.None? {
      assert forall r :: RoleName(r) == RoleName(Master) || RoleName(r) == RoleName(RegionServer) || RoleName(r) == RoleName(RestServer);
      return None;
    }
    var newLabels := CopyMap(labels);
    newLabels.pairs := newLabels.pairs[SCRAPE := "true"];
    var newAnnotations := CopyMap(annotations);
    newAnnotations.pairs := newAnnotations.pairs[SCRAPE := "true"];
    newAnnotations.pairs := newAnnotations.pairs[SCRAPE_PATH := "/prometheus"];
    newAnnotations.pairs := newAnnotations.pairs[SCRAPE_PORT := Itoa(port.value)];
    newAnnotations.pairs := newAnnotations.pairs[SCRAPE_SCHEME := "http"];
    var s := new MetricsService(port.value, newLabels, labels, newAnnotations);
    return Some(s);
  }

  function Annotated(pairs: Pairs, port: int): Pairs {
    pairs[SCRAPE := "true"][SCRAPE_PATH := "/prometheus"][SCRAPE_PORT := Itoa(port)][SCRAPE_SCHEME := "http"]
  }

  lemma RoleNameIdentifies()
    ensures forall a, b :: RoleName(a) == RoleName(b) <==> a == b
  {
    assert |"master"| == 6 && |"regionserver"| == 12 && |"restserver"| == 10;
  }

  predicate Selects(selector: Pairs, podLabels: Pairs) {
    forall k :: k in selector ==> k in podLabels && podLabels[k] == selector[k]
  }

  /** Why the selector is not the Service's own label map: that one would select the group's pods only
      if they had the scrape label already. */
  lemma OwnLabelsSelectExactly(labels: Pairs)
    ensures Selects(labels, labels)
    ensures Selects(labels[SCRAPE := "true"], labels) <==> SCRAPE in labels && labels[SCRAPE] == "true"
  {
    var extended := labels[SCRAPE := "true"];
    assert SCRAPE in extended && extended[SCRAPE] == "true";
  }

  function Entry(pairs: Pairs, key: string): string {
    if key in pairs then pairs[key] else ""
  }

  /** What a scraper puts together from the annotations, for any host name, is the URL of the page of metrics at
      the role's metrics port, whatever annotations the group has. */
  lemma ScrapeUrlReadsBack(pairs: Pairs, r: Role, host: string)
    requires '%' !in host && '/' !in host && ':' !in host
    ensures var a := Annotated(pairs, MetricsPort(r));
            && Entry(a, "prometheus.io/scrape") == "true"
            && Urls.ParseUrl(Entry(a, "prometheus.io/scheme") + "://" + (host + (":" + Entry(a, "prometheus.io/port")))
                             + Entry(a, "prometheus.io/path"))
               == Some(Urls.HttpUrl(host, MetricsPort(r), "/prometheus"))
  {
    var port := MetricsPort(r);
    AnnotationEntries(pairs, port);
    PageUrlParses(host, port, "/prometheus");
    assert "http" + "://" == "http://";
  }

  lemma AnnotationEntries(pairs: Pairs, port: int)
    ensures var a := Annotated(pairs, port);
            && Entry(a, "prometheus.io/scrape") == "true" && Entry(a, "prometheus.io/scheme") == "http"
            && Entry(a, "prometheus.io/port") == Itoa(port) && Entry(a, "prometheus.io/path") == "/prometheus"
  {
    assert |SCRAPE| == 20 && |SCRAPE_PATH| == 18 && |SCRAPE_PORT| == 18 && |SCRAPE_SCHEME| == 20;
    assert SCRAPE[15] == 'c' && SCRAPE_SCHEME[16] == 'h' && SCRAPE[16] == 'r' && SCRAPE_PATH[15] == 'a' && SCRAPE_PORT[15] == 'o';
  }

  lemma PageUrlParses(host: string, port: int, path: string)
    requires '%' !in host && '/' !in host && ':' !in host
    requires path != "" && path[0] == '/' && '%' !in path
    ensures Urls.ParseUrl("http://" + (host + (":" + Itoa(port))) + path) == Some(Urls.HttpUrl(host, port, path))
  {
    var authority := host + (":" + Itoa(port));
    assert "http://" + authority + path == "http://" + (authority + path);
    Oidc.PortTextIsPlain(port);
    Oidc.SlashIsEscaped(":" + Itoa(port));
    Oidc.CutUrl("http://" + (authority + path), authority, path);
    Oidc.PortedAuthorityParses(host, port);
    Oidc.UnescapeOfPlain(path);
  }

  lemma PortOfRoleIsMetricsPort(r: Role)
    ensures PortOfRole(RoleName(r)) == Some(MetricsPort(r))
  {
    RoleNameIdentifies();
  }
}
