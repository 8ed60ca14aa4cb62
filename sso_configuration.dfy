/** The single sign-on panel of src/components/SSO/SSOConfiguration.tsx: the
    secret-visibility map, the statistics cards, the provider selection and
    the add-provider form. */
module SsoConfiguration {
  import opened Wrappers
  import opened Seqs

  datatype ProviderType = Saml | Oidc | OAuth | Ldap
  datatype ProviderStatus = Active | Inactive | Pending | Error

  /** An `SSOProvider`; `lastSync` is a millisecond timestamp and `config`
      keeps only string values. */
  datatype Provider = Provider(
    id: string, name: string, providerType: ProviderType, status: ProviderStatus,
    users: int, lastSync: Option<int>, config: map<string, string>, domains: seq<string>)

  /** A `Partial<SSOProvider>`, as the add form builds it. */
  datatype ProviderDraft = ProviderDraft(name: Option<string>, providerType: Option<ProviderType>)

  // ---------------------------------------------------------------------
  // Secret visibility
  // ---------------------------------------------------------------------

  /** The template string `${providerId}-${field}`. */
  function SecretKey(providerId: string, field: string): string {
    providerId + "-" + field
  }

  /** `showSecrets[key]` read as a boolean: an absent key is hidden. */
  function Shown(showSecrets: map<string, bool>, key: string): bool {
    key in showSecrets && showSecrets[key]
  }

  /** `{ ...prev, [key]: !prev[key] }`. */
  function Toggled(showSecrets: map<string, bool>, key: string): (r: map<string, bool>)
    ensures Shown(r, key) == !Shown(showSecrets, key)
    ensures r.Keys == showSecrets.Keys + {key}
    ensures forall k :: k in showSecrets && k != key ==> r[k] == showSecrets[k]
  {
    showSecrets[key := !Shown(showSecrets, key)]
  }

  /** Toggling twice hides again what was hidden, and shows what was shown. */
  lemma ToggleTwice(showSecrets: map<string, bool>, key: string)
    ensures Shown(Toggled(Toggled(showSecrets, key), key), key) == Shown(showSecrets, key)
    ensures !(key in showSecrets) ==> !Shown(Toggled(Toggled(showSecrets, key), key), key)
    ensures forall k :: k != key ==> Shown(Toggled(Toggled(showSecrets, key), key), k) == Shown(showSecrets, k)
  {
  }

  /** The client-secret field's keys of two providers coincide only for the
      same provider, so a provider's toggle never reveals another's secret. */
  lemma SecretKeysDistinct(a: string, b: string)
    requires a != b
    ensures SecretKey(a, "secret") != SecretKey(b, "secret")
  {
    var ka, kb := SecretKey(a, "secret"), SecretKey(b, "secret");
    if |a| == |b| {
      var i :| 0 <= i < |a| && a[i] != b[i];
      assert ka[i] == a[i] && kb[i] == b[i];
    } else {
      assert |ka| != |kb|;
    }
  }

  /** The `type` of the client-secret input. */
  function SecretInputType(showSecrets: map<string, bool>, providerId: string): (r: string)
    ensures r == "text" <==> Shown(showSecrets, SecretKey(providerId, "secret"))
  {
    if Shown(showSecrets, SecretKey(providerId, "secret")) then "text" else "password"
  }

  // ---------------------------------------------------------------------
  // Statistics
  // ---------------------------------------------------------------------

  function UsersOf(p: Provider): int { p.users }

  /** The Active Users card. */
  function ActiveUsers(providers: seq<Provider>): (r: int)
    ensures (forall p :: p in providers ==> p.users >= 0) ==> r >= 0
  {
    if forall p :: p in providers ==> p.users >= 0 then
      SumOfNonNegative(providers, UsersOf);
      SumOf(providers, UsersOf)
    else SumOf(providers, UsersOf)
  }

  /** The Active Users card is additive over the provider list. */
  lemma ActiveUsersAppend(a: seq<Provider>, b: seq<Provider>)
    ensures ActiveUsers(a + b) == ActiveUsers(a) + ActiveUsers(b)
    ensures (forall p :: p in a + b ==> p.users >= 0) ==>
      ActiveUsers(a) <= ActiveUsers(a + b) && ActiveUsers(b) <= ActiveUsers(a + b)
  {
    SumOfAppend(a, b, UsersOf);
    if forall p :: p in a + b ==> p.users >= 0 {
      SumOfNonNegative(a, UsersOf);
      SumOfNonNegative(b, UsersOf);
    }
  }

  /** The Active card. */
  function ActiveCount(providers: seq<Provider>): (r: nat)
    ensures r <= |providers|
  {
    |Filter(providers, (p: Provider) => p.status == Active)|
  }

  /** `providers.flatMap(p => p.domains)`. */
  function AllDomains(providers: seq<Provider>): (r: seq<string>)
    ensures forall d :: d in r <==> exists p :: p in providers && d in p.domains
    ensures |r| == SumOf(providers, (p: Provider) => |p.domains|)
  {
    if providers == [] then []
    else
      var rest := AllDomains(providers[1..]);
      assert forall p :: p in providers <==> p == providers[0] || p in providers[1..];
      providers[0].domains + rest
  }

  /** The Domains card: `new Set(...).size`. */
  function DomainCount(providers: seq<Provider>): (r: nat)
    ensures r <= |AllDomains(providers)|
  {
    DistinctCountBound(AllDomains(providers));
    |Elements(AllDomains(providers))|
  }

  /** A domain listed by two providers is counted once. */
  lemma SharedDomainCountedOnce(p: Provider, q: Provider, d: string)
    requires p.domains == [d] && q.domains == [d]
    ensures DomainCount([p, q]) == 1
  {
    var all := AllDomains([p, q]);
    assert forall x :: x in all <==> x == d by {
      assert [p, q][0] == p && [p, q][1] == q;
    }
    assert Elements(all) == {d};
  }

  // ---------------------------------------------------------------------
  // Selection and the add form
  // ---------------------------------------------------------------------

  datatype View = ProviderList | ProviderDetail(provider: Provider)

  /** The component's early return: the detail view needs a truthy selected id
      that matches a provider; anything else falls through to the list. */
  function CurrentView(providers: seq<Provider>, selected: Option<string>): (r: View)
    ensures r.ProviderDetail? <==>
      selected.Some? && selected.value != "" && exists p :: p in providers && p.id == selected.value
    ensures r.ProviderDetail? ==> r.provider in providers && r.provider.id == selected.value
    ensures r.ProviderDetail? ==> exists i :: (0 <= i < |providers| && providers[i] == r.provider
      && forall j :: 0 <= j < i ==> providers[j].id != selected.value)
  {
    if selected.Some? && selected.value != "" then
      match Find(providers, (p: Provider) => p.id == selected.value)
      case Some(p) => ProviderDetail(p)
      case None => ProviderList
    else ProviderList
  }

  /** The component's state, with the drafts passed to `onAddProvider`. */
  class SsoPanel {
    var selectedProvider: Option<string>
    var isAddingProvider: bool
    var newProvider: ProviderDraft
    var showSecrets: map<string, bool>
    var forwarded: seq<ProviderDraft>

    constructor ()
      ensures selectedProvider == None && !isAddingProvider
      ensures newProvider == ProviderDraft(None, None) && showSecrets == map[] && forwarded == []
    {
      selectedProvider := None;
      isAddingProvider := false;
      newProvider := ProviderDraft(None, None);
      showSecrets := map[];
      forwarded := [];
    }

    /** `toggleSecretVisibility`: flips one key and nothing else. */
    method ToggleSecretVisibility(providerId: string, field: string)
      modifies this
      ensures showSecrets == Toggled(old(showSecrets), SecretKey(providerId, field))
      ensures selectedProvider == old(selectedProvider) && isAddingProvider == old(isAddingProvider)
      ensures newProvider == old(newProvider) && forwarded == old(forwarded)
    {
      var key := SecretKey(providerId, field);
      showSecrets := showSecrets[key := !Shown(showSecrets, key)];
    }

    /** The "Configure" button of a provider card. */
    method Configure(id: string)
      modifies this
      ensures selectedProvider == Some(id)
      ensures isAddingProvider == old(isAddingProvider) && newProvider == old(newProvider)
      ensures showSecrets == old(showSecrets) && forwarded == old(forwarded)
    {
      selectedProvider := Some(id);
    }

    /** "Back to Providers". */
    method Back()
      modifies this
      ensures selectedProvider == None
      ensures isAddingProvider == old(isAddingProvider) && newProvider == old(newProvider)
      ensures showSecrets == old(showSecrets) && forwarded == old(forwarded)
    {
      selectedProvider := None;
    }

    method OpenAddForm()
      modifies this
      ensures isAddingProvider
      ensures selectedProvider == old(selectedProvider) && newProvider == old(newProvider)
      ensures showSecrets == old(showSecrets) && forwarded == old(forwarded)
    {
      isAddingProvider := true;
    }

    method CancelAddForm()
      modifies this
      ensures !isAddingProvider
      ensures selectedProvider == old(selectedProvider) && newProvider == old(newProvider)
      ensures showSecrets == old(showSecrets) && forwarded == old(forwarded)
    {
      isAddingProvider := false;
    }

    method OnNameChange(text: string)
      modifies this
      ensures newProvider == old(newProvider).(name := Some(text))
      ensures selectedProvider == old(selectedProvider) && isAddingProvider == old(isAddingProvider)
      ensures showSecrets == old(showSecrets) && forwarded == old(forwarded)
    {
      newProvider := newProvider.(name := Some(text));
    }

    method OnTypeChange(t: ProviderType)
      modifies this
      ensures newProvider == old(newProvider).(providerType := Some(t))
      ensures selectedProvider == old(selectedProvider) && isAddingProvider == old(isAddingProvider)
      ensures showSecrets == old(showSecrets) && forwarded == old(forwarded)
    {
      newProvider := newProvider.(providerType := Some(t));
    }

    /** "Add Provider": the draft is forwarded as it stands, even empty; the
        form stays open and the draft is kept. */
    method AddProvider()
      modifies this
      ensures forwarded == old(forwarded) + [old(newProvider)]
      ensures selectedProvider == old(selectedProvider) && isAddingProvider == old(isAddingProvider)
      ensures newProvider == old(newProvider) && showSecrets == old(showSecrets)
    {
      forwarded := forwarded + [newProvider];
    }
  }
}
