/** The base every endpoint facade shares (inventaire/server/endpoints/common.py):
    a base path set by the facade's constructor and the target builder `_path`. */
module Common {
  import opened Values

  /** What `_path` returns, or the ValueError it raises when no base path is set. */
  datatype PathResult = Target(path: string) | BasePathNotSet

  /** The part of an endpoint object that `_path` reads. The session reference the
      constructor also stores is only used to send requests and is not modelled. */
  datatype EndpointTemplate = EndpointTemplate(basePath: Option<string>)

  const ActionPrefix: string := "?action="

  /** `EndpointTemplate.__init__`: a new template has no base path yet. */
  function New(): (e: EndpointTemplate)
    ensures e.basePath == None
  {
    EndpointTemplate(None)
  }

  /** The base `_path` uses: a truthy override, else the template's own base path. */
  function ResolvedBase(self: EndpointTemplate, base: Option<string>): (b: Option<string>)
    ensures Truthy(base) ==> b == base
    ensures !Truthy(base) ==> b == self.basePath
  {
    if Truthy(base) then base else self.basePath
  }

  /** `EndpointTemplate._path(action, base)`. */
  function Path(self: EndpointTemplate, action: Option<string> := None, base: Option<string> := None): (r: PathResult)
    ensures r.Target? <==> Truthy(base) || Truthy(self.basePath)
    ensures Truthy(base) && Truthy(action) ==> r == Target(base.value + ActionPrefix + action.value)
    ensures Truthy(base) && !Truthy(action) ==> r == Target(base.value)
    ensures !Truthy(base) && Truthy(self.basePath) && Truthy(action)
            ==> r == Target(self.basePath.value + ActionPrefix + action.value)
    ensures !Truthy(base) && Truthy(self.basePath) && !Truthy(action) ==> r == Target(self.basePath.value)
  {
    var b := ResolvedBase(self, base);
    if !Truthy(b) then BasePathNotSet
    else if Truthy(action) then Target(b.value + ActionPrefix + action.value)
    else Target(b.value)
  }

  /** The target a facade with base path `base` builds for a non-empty `action`. */
  lemma ActionTarget(self: EndpointTemplate, base: string, action: string, target: string)
    requires self.basePath == Some(base) && base != "" && action != ""
    requires target == base + ActionPrefix + action
    ensures Path(self, Some(action)) == Target(target)
  {
  }

  /** A freshly constructed template cannot build any target without an override. */
  lemma FreshTemplateHasNoTarget(action: Option<string>, base: Option<string>)
    ensures Path(New(), action, base).Target? <==> Truthy(base)
  {
  }

  /** The first position of `c` in `s`, or `|s|` when there is none. */
  function IndexOf(c: char, s: string): (i: nat)
    ensures i <= |s|
    ensures i < |s| ==> s[i] == c
    ensures forall j :: 0 <= j < i ==> s[j] != c
  {
    if s == [] then 0
    else if s[0] == c then 0
    else 1 + IndexOf(c, s[1..])
  }

  /** Reads a target back into its base path and its action, if it names one. */
  function ParseTarget(t: string): (string, Option<string>)
  {
    var i := IndexOf('?', t);
    if i < |t| && ActionPrefix <= t[i..] then (t[..i], Some(t[i + |ActionPrefix|..]))
    else (t, None)
  }

  /** `_path` loses nothing: when the resolved base holds no `?`, the target it builds
      reads back as that base and the action, and an absent or empty action leaves
      no `?action=` behind. */
  lemma PathRoundTrip(self: EndpointTemplate, action: Option<string>, base: Option<string>)
    requires Truthy(ResolvedBase(self, base))
    requires '?' !in ResolvedBase(self, base).value
    ensures Path(self, action, base).Target?
    ensures ParseTarget(Path(self, action, base).path)
            == (ResolvedBase(self, base).value, if Truthy(action) then action else None)
  {
    var b := ResolvedBase(self, base).value;
    var t := Path(self, action, base).path;
    if Truthy(action) {
      assert t == b + ActionPrefix + action.value;
      var i := IndexOf('?', t);
      assert t[|b|] == '?';
      assert i == |b|;
      assert t[i..] == ActionPrefix + action.value;
      assert t[..i] == b;
      assert t[i + |ActionPrefix|..] == action.value;
    } else {
      assert t == b;
      assert IndexOf('?', t) == |t|;
    }
  }

  /** A session call whose target comes from `_path`: the ValueError surfaces before
      any request is made. */
  function Send(verb: Verb, target: PathResult, params: Params): (r: Outcome)
    ensures r.Req? <==> target.Target?
    ensures target.Target? ==> r == Req(verb, target.path, params)
    ensures target.BasePathNotSet? ==> r == PathError
  {
    match target
    case Target(t) => Req(verb, t, params)
    case BasePathNotSet => PathError
  }
}
