/**
 * The non-interactive parts of the setup wizard: the choice of DID method,
 * the parsing of the Ollama service address, and the reconciliation of the
 * configured models with the models the user selects from the backend's
 * listing.
 */
module SetupWizard {
  import opened Wrappers
  import opened Strings
  import opened StateManagement

  const HTTP_PREFIX := "http://"
  const DEFAULT_OLLAMA_ADDRESS := "http://localhost:11434"

  // ---- DID method ----

  datatype DidMethod = Key | Peer

  /** `get_did_method`: the first menu entry is `did:key`, any other `did:peer`. */
  function DidMethodFor(selected: nat): (r: DidMethod)
    ensures r == Key <==> selected == 0
    ensures r == Peer <==> selected != 0
  {
    if selected == 0 then Key else Peer
  }

  // ---- Ollama address ----

  datatype AddressError = NotAnAddress | PortOutOfRange

  /** The index of the first ':' in `s`, or `|s|` when there is none. */
  function ColonIndex(s: string): (i: nat)
    ensures i <= |s|
    ensures forall k :: 0 <= k < i ==> s[k] != ':'
    ensures i < |s| ==> s[i] == ':'
  {
    if s == [] then 0
    else if s[0] == ':' then 0
    else
      var i := ColonIndex(s[1..]);
      assert forall k :: 1 <= k < 1 + i ==> s[k] == s[1..][k - 1];
      1 + i
  }

  /**
   * `s` matches `^(http://[^:]*):(\d+)$` with the separating colon at
   * index `n`: the prefix, no colon before `n`, and one or more digits after it.
   */
  predicate SplitsAt(s: string, n: nat)
  {
    && |HTTP_PREFIX| <= n < |s| - 1
    && StartsWith(s, HTTP_PREFIX)
    && s[n] == ':'
    && (forall k :: |HTTP_PREFIX| <= k < n ==> s[k] != ':')
    && AllDigits(s[n + 1..])
  }

  /** Indexing after the scheme is indexing the remainder. */
  lemma AfterPrefix(s: string, k: nat)
    requires |HTTP_PREFIX| <= k < |s|
    ensures s[|HTTP_PREFIX|..][k - |HTTP_PREFIX|] == s[k]
  {
  }

  /** The separating colon, if there is one, is the first colon after the prefix. */
  lemma SplitIsFirstColon(s: string, n: nat)
    requires SplitsAt(s, n)
    ensures n == |HTTP_PREFIX| + ColonIndex(s[|HTTP_PREFIX|..])
  {
    var rest := s[|HTTP_PREFIX|..];
    var d := n - |HTTP_PREFIX|;
    AfterPrefix(s, n);
    assert rest[d] == ':';
    forall k | 0 <= k < d
      ensures rest[k] != ':'
    {
      AfterPrefix(s, |HTTP_PREFIX| + k);
    }
  }

  /**
   * After the scheme, the first colon followed by one or more digits is a
   * split point, and no other index is one.
   */
  lemma FirstColonSplits(s: string)
    requires StartsWith(s, HTTP_PREFIX)
    ensures var n := |HTTP_PREFIX| + ColonIndex(s[|HTTP_PREFIX|..]);
      && (forall m :: SplitsAt(s, m) ==> m == n)
      && (SplitsAt(s, n) <==> n < |s| - 1 && AllDigits(s[n + 1..]))
  {
    var n := |HTTP_PREFIX| + ColonIndex(s[|HTTP_PREFIX|..]);
    forall m | SplitsAt(s, m)
      ensures m == n
    {
      SplitIsFirstColon(s, m);
    }
    if n < |s| - 1 && AllDigits(s[n + 1..]) {
      AfterPrefix(s, n);
      forall k | |HTTP_PREFIX| <= k < n
        ensures s[k] != ':'
      {
        AfterPrefix(s, k);
      }
    }
  }

  /**
   * `get_ollama_address` after the prompt: the host part (with its scheme)
   * and the port, which must fit in 16 bits.
   */
  function ParseOllamaAddress(s: string): (r: Result<(string, Port), AddressError>)
    ensures r.Ok? ==>
      && SplitsAt(s, |r.value.0|)
      && r.value.0 == s[..|r.value.0|]
      && r.value.1 == DigitsValue(s[|r.value.0| + 1..])
    ensures r == Err(NotAnAddress) <==> forall n :: !SplitsAt(s, n)
    ensures r == Err(PortOutOfRange) <==> exists n :: SplitsAt(s, n) && DigitsValue(s[n + 1..]) >= 0x1_0000
  {
    if !StartsWith(s, HTTP_PREFIX) then Err(NotAnAddress)
    else
      var n := |HTTP_PREFIX| + ColonIndex(s[|HTTP_PREFIX|..]);
      FirstColonSplits(s);
      if !SplitsAt(s, n) then
        Err(NotAnAddress)
      else
        var v := DigitsValue(s[n + 1..]);
        if v < 0x1_0000 then Ok((s[..n], v)) else Err(PortOutOfRange)
  }

  /** A host, a colon and digits split at the colon. */
  lemma JoinedSplits(host: string, digits: string)
    requires StartsWith(host, HTTP_PREFIX)
    requires forall k :: |HTTP_PREFIX| <= k < |host| ==> host[k] != ':'
    requires |digits| > 0 && AllDigits(digits)
    ensures var s := host + ":" + digits;
      && SplitsAt(s, |host|)
      && s[..|host|] == host
      && s[|host| + 1..] == digits
  {
    var s := host + ":" + digits;
    assert s[|host| + 1..] == digits;
    assert s[..|host|] == host;
    assert s[..|HTTP_PREFIX|] == host[..|HTTP_PREFIX|];
    assert forall k :: |HTTP_PREFIX| <= k < |host| ==> s[k] == host[k];
  }

  /** A host without a colon after the scheme, a colon and the decimal port parse back to that host and port. */
  lemma AddressRoundTrip(host: string, port: Port)
    requires StartsWith(host, HTTP_PREFIX)
    requires forall k :: |HTTP_PREFIX| <= k < |host| ==> host[k] != ':'
    ensures ParseOllamaAddress(host + ":" + Decimal(port)) == Ok((host, port))
  {
    var s := host + ":" + Decimal(port);
    JoinedSplits(host, Decimal(port));
    DecimalRoundTrip(port);
    FirstColonSplits(s);
    assert forall m :: SplitsAt(s, m) ==> m == |host|;
    var r := ParseOllamaAddress(s);
    assert r.Ok?;
    assert |r.value.0| == |host|;
  }

  /** The default port prints as the digits of the default address. */
  lemma DefaultPortText()
    ensures Decimal(11434) == "11434"
  {
    assert Decimal(1) == "1";
    assert Decimal(11) == Decimal(1) + "1" == "11";
    assert Decimal(114) == Decimal(11) + "4" == "114";
    assert Decimal(1143) == Decimal(114) + "3" == "1143";
    assert Decimal(11434) == Decimal(1143) + "4" == "11434";
  }

  /** The address the prompt offers by default. */
  lemma DefaultAddress()
    ensures ParseOllamaAddress(DEFAULT_OLLAMA_ADDRESS) == Ok(("http://localhost", 11434))
  {
    DefaultPortText();
    assert DEFAULT_OLLAMA_ADDRESS == "http://localhost" + ":" + Decimal(11434);
    AddressRoundTrip("http://localhost", 11434);
  }

  /** A port that does not fit in 16 bits is refused, not truncated. */
  lemma PortTooLarge()
    ensures ParseOllamaAddress("http://localhost:65536") == Err(PortOutOfRange)
  {
    var s := "http://localhost:65536";
    assert s[17..] == "65536";
    assert DigitsValue("65536") == 65536 by {
      assert "65536"[..4] == "6553";
      assert "6553"[..3] == "655";
      assert "655"[..2] == "65";
      assert "65"[..1] == "6";
      assert "6"[..0] == "";
    }
    assert SplitsAt(s, 16);
  }

  // ---- Model selection ----

  datatype WizardError = ListingFailed | DidCreationFailed

  /** `defaults`: whether each listed model is already configured. */
  method ComputeDefaults(names: seq<string>, configured: set<string>) returns (defaults: seq<bool>)
    ensures |defaults| == |names|
    ensures forall i :: 0 <= i < |names| ==> defaults[i] == (names[i] in configured)
  {
    defaults := [];
    var i := 0;
    while i < |names|
      invariant i <= |names|
      invariant |defaults| == i
      invariant forall j :: 0 <= j < i ==> defaults[j] == (names[j] in configured)
    {
      defaults := defaults + [names[i] in configured];
      i := i + 1;
    }
  }

  /** Every selected index points into the listing. */
  predicate ValidSelection(names: seq<string>, selected: seq<nat>)
  {
    forall j :: 0 <= j < |selected| ==> selected[j] < |names|
  }

  /** The index of the first DID creation that fails, or `|dids|` when none does. */
  function FirstFailure(dids: seq<Option<string>>): (k: nat)
    ensures k <= |dids|
    ensures forall j :: 0 <= j < k ==> dids[j].Some?
    ensures k < |dids| ==> dids[k].None?
  {
    if dids == [] then 0
    else if dids[0].None? then 0
    else
      var k := FirstFailure(dids[1..]);
      assert forall j :: 1 <= j < 1 + k ==> dids[j] == dids[1..][j - 1];
      1 + k
  }

  /** The models after the first `k` selections were added, each as a freshly created model. */
  function Enabled(m: map<string, OllamaModel>, host: string, port: Port, names: seq<string>,
                   selected: seq<nat>, dids: seq<Option<string>>, k: nat): map<string, OllamaModel>
    requires ValidSelection(names, selected) && k <= |selected| <= |dids|
    requires forall j :: 0 <= j < k ==> dids[j].Some?
  {
    if k == 0 then m
    else
      var name := names[selected[k - 1]];
      Enabled(m, host, port, names, selected, dids, k - 1)[name := NewOllamaModel(host, port, name, dids[k - 1]).value]
  }

  /** The names the removal loop drops among the first `i` listed: configured before, not selected now. */
  function Dropped(names: seq<string>, configured: set<string>, selected: seq<nat>, i: nat): set<string>
    requires i <= |names|
  {
    if i == 0 then {}
    else
      Dropped(names, configured, selected, i - 1) +
        (if names[i - 1] in configured && (i - 1) !in selected then {names[i - 1]} else {})
  }

  /** The add loop: each selection in turn, until a DID creation fails. */
  method EnableSelected(config: SharedState, host: string, port: Port, names: seq<string>,
                        selected: seq<nat>, dids: seq<Option<string>>)
    returns (added: nat)
    requires config.Valid()
    requires ValidSelection(names, selected) && |dids| == |selected|
    modifies config
    ensures config.Valid()
    ensures added == FirstFailure(dids)
    ensures config.ModelValues() == Enabled(old(config.ModelValues()), host, port, names, selected, dids, added)
  {
    ghost var m0 := config.ModelValues();
    added := 0;
    while added < |selected|
      invariant added <= |selected|
      invariant config.Valid()
      invariant forall j :: 0 <= j < added ==> dids[j].Some?
      invariant config.ModelValues() == Enabled(m0, host, port, names, selected, dids, added)
    {
      var name := names[selected[added]];
      var model := NewOllamaModel(host, port, name, dids[added]);
      if model.None? {
        return;
      }
      config.AddModel(name, model.value);
      added := added + 1;
    }
  }

  /** The removal loop: every listed model that was configured and is not selected. */
  method RemoveDeselected(config: SharedState, names: seq<string>, defaults: seq<bool>, selected: seq<nat>,
                          ghost configured: set<string>)
    requires config.Valid()
    requires |defaults| == |names| && forall i :: 0 <= i < |names| ==> defaults[i] == (names[i] in configured)
    modifies config
    ensures config.Valid()
    ensures config.ModelValues() == old(config.ModelValues()) - Dropped(names, configured, selected, |names|)
  {
    ghost var enabled := config.ModelValues();
    var i := 0;
    while i < |names|
      invariant i <= |names|
      invariant config.Valid()
      invariant config.ModelValues() == enabled - Dropped(names, configured, selected, i)
    {
      if defaults[i] && i !in selected {
        config.RemoveModel(names[i]);
      }
      assert enabled - Dropped(names, configured, selected, i + 1) ==
        (if names[i] in configured && i !in selected
         then (enabled - Dropped(names, configured, selected, i)) - {names[i]}
         else enabled - Dropped(names, configured, selected, i));
      i := i + 1;
    }
  }

  /**
   * `add_ollama_models`: lists the backend's models, adds every selected
   * one (replacing any configured model of that name), then removes every
   * configured one that was listed and not selected. `listing` is what the
   * backend returned, `selected` the indices the user picked, and `dids`
   * the outcome of DID creation for each selection in turn.
   */
  method AddOllamaModels(config: SharedState, host: string, port: Port, listing: Option<seq<string>>,
                         selected: seq<nat>, dids: seq<Option<string>>)
    returns (r: Result<(), WizardError>)
    requires config.Valid()
    requires listing.Some? ==> ValidSelection(listing.value, selected)
    requires |dids| == |selected|
    modifies config
    ensures config.Valid()
    ensures listing.None? ==> r == Err(ListingFailed) && config.models == old(config.models)
    ensures r == Err(DidCreationFailed) <==> listing.Some? && FirstFailure(dids) < |dids|
    ensures r == Err(DidCreationFailed) ==>
      config.ModelValues() == Enabled(old(config.ModelValues()), host, port, listing.value, selected, dids, FirstFailure(dids))
    ensures r.Ok? ==>
      && listing.Some? && FirstFailure(dids) == |dids|
      && config.ModelValues() ==
           Enabled(old(config.ModelValues()), host, port, listing.value, selected, dids, |selected|)
             - Dropped(listing.value, old(config.models.Keys), selected, |listing.value|)
  {
    if listing.None? {
      return Err(ListingFailed);
    }
    var names := listing.value;
    ghost var keys0 := config.models.Keys;
    var defaults := ComputeDefaults(names, config.models.Keys);
    var added := EnableSelected(config, host, port, names, selected, dids);
    if added < |selected| {
      return Err(DidCreationFailed);
    }
    RemoveDeselected(config, names, defaults, selected, keys0);
    r := Ok(());
  }

  // ---- What the reconciliation achieves ----

  /** The names of the first `k` selections. */
  function Chosen(names: seq<string>, selected: seq<nat>, k: nat): set<string>
    requires ValidSelection(names, selected) && k <= |selected|
  {
    if k == 0 then {} else Chosen(names, selected, k - 1) + {names[selected[k - 1]]}
  }

  lemma {:induction false} ChosenMembers(names: seq<string>, selected: seq<nat>, k: nat, x: string)
    requires ValidSelection(names, selected) && k <= |selected|
    ensures x in Chosen(names, selected, k) <==> exists j :: 0 <= j < k && names[selected[j]] == x
  {
    if k > 0 {
      ChosenMembers(names, selected, k - 1, x);
    }
  }

  lemma {:induction false} DroppedMembers(names: seq<string>, configured: set<string>, selected: seq<nat>, i: nat, x: string)
    requires i <= |names|
    ensures x in Dropped(names, configured, selected, i) <==>
      exists j :: 0 <= j < i && names[j] == x && x in configured && j !in selected
  {
    if i > 0 {
      DroppedMembers(names, configured, selected, i - 1, x);
    }
  }

  /**
   * After the first `k` selections: the configured models plus the chosen
   * names, each chosen name holding the model created for it, every other
   * model untouched.
   */
  lemma {:induction false} EnabledShape(m: map<string, OllamaModel>, host: string, port: Port, names: seq<string>,
                                        selected: seq<nat>, dids: seq<Option<string>>, k: nat)
    requires ValidSelection(names, selected) && k <= |selected| <= |dids|
    requires forall j :: 0 <= j < k ==> dids[j].Some?
    requires forall a, b :: 0 <= a < b < |selected| ==> names[selected[a]] != names[selected[b]]
    ensures var e := Enabled(m, host, port, names, selected, dids, k);
      && e.Keys == m.Keys + Chosen(names, selected, k)
      && (forall n :: n in m && n !in Chosen(names, selected, k) ==> e[n] == m[n])
      && (forall j :: 0 <= j < k ==>
            names[selected[j]] in e && e[names[selected[j]]] == NewOllamaModel(host, port, names[selected[j]], dids[j]).value)
  {
    if k > 0 {
      EnabledShape(m, host, port, names, selected, dids, k - 1);
    }
  }

  /** With distinct names, a listed name is chosen exactly when its index is selected. */
  lemma ChosenIndices(names: seq<string>, selected: seq<nat>, i: nat)
    requires ValidSelection(names, selected) && i < |names|
    requires forall a, b :: 0 <= a < b < |names| ==> names[a] != names[b]
    ensures names[i] in Chosen(names, selected, |selected|) <==> i in selected
  {
    ChosenMembers(names, selected, |selected|, names[i]);
    if i in selected {
      var j :| 0 <= j < |selected| && selected[j] == i;
      assert names[selected[j]] == names[i];
    }
  }

  /** With distinct names, a listed name is dropped exactly when it was configured and its index is not selected. */
  lemma DroppedIndices(names: seq<string>, configured: set<string>, selected: seq<nat>, i: nat)
    requires i < |names|
    requires forall a, b :: 0 <= a < b < |names| ==> names[a] != names[b]
    ensures names[i] in Dropped(names, configured, selected, |names|) <==> names[i] in configured && i !in selected
  {
    DroppedMembers(names, configured, selected, |names|, names[i]);
  }

  /** A name the backend did not list is neither chosen nor dropped. */
  lemma Unlisted(names: seq<string>, configured: set<string>, selected: seq<nat>, n: string)
    requires ValidSelection(names, selected) && n !in names
    ensures n !in Chosen(names, selected, |selected|)
    ensures n !in Dropped(names, configured, selected, |names|)
  {
    ChosenMembers(names, selected, |selected|, n);
    DroppedMembers(names, configured, selected, |names|, n);
    assert forall j :: 0 <= j < |selected| ==> names[selected[j]] in names;
  }

  /**
   * With a listing of distinct names and distinct selections, a successful
   * run leaves exactly the selected listed models configured, each freshly
   * created (a previously configured one loses its identities and
   * conversations), and every model the backend did not list untouched.
   */
  lemma Reconciled(m: map<string, OllamaModel>, host: string, port: Port, names: seq<string>,
                   selected: seq<nat>, dids: seq<Option<string>>)
    requires ValidSelection(names, selected) && |dids| == |selected| && FirstFailure(dids) == |dids|
    requires forall a, b :: 0 <= a < b < |names| ==> names[a] != names[b]
    requires forall a, b :: 0 <= a < b < |selected| ==> selected[a] != selected[b]
    ensures var final := Enabled(m, host, port, names, selected, dids, |selected|) - Dropped(names, m.Keys, selected, |names|);
      && (forall i :: 0 <= i < |names| ==> (names[i] in final <==> i in selected))
      && (forall j :: 0 <= j < |selected| ==>
            names[selected[j]] in final &&
            final[names[selected[j]]] == NewOllamaModel(host, port, names[selected[j]], dids[j]).value)
      && (forall n :: n in m && n !in names ==> n in final && final[n] == m[n])
  {
    var e := Enabled(m, host, port, names, selected, dids, |selected|);
    var dropped := Dropped(names, m.Keys, selected, |names|);
    var chosen := Chosen(names, selected, |selected|);
    EnabledShape(m, host, port, names, selected, dids, |selected|);
    forall i | 0 <= i < |names|
      ensures names[i] in e - dropped <==> i in selected
    {
      ChosenIndices(names, selected, i);
      DroppedIndices(names, m.Keys, selected, i);
    }
    forall j | 0 <= j < |selected|
      ensures names[selected[j]] !in dropped
    {
      DroppedIndices(names, m.Keys, selected, selected[j]);
      assert selected[j] in selected;
    }
    forall n | n in m && n !in names
      ensures n !in chosen && n !in dropped
    {
      Unlisted(names, m.Keys, selected, n);
    }
  }
}
