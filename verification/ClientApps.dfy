/** The client apps a processor knows, and the home domain their user ranges give a user. */
module ClientApps {
  import opened Types
  import opened Names

  datatype UserDistribution = UserDistribution(domain: string, from: Option<int>, to: Option<int>)
  {
    predicate Contains(number: int) {
      var low := if from.Some? then from.value else 0;
      var high := if to.Some? then to.value else MAX_LONG;
      low <= number <= high
    }
  }

  datatype ClientApp = ClientApp(appName: string, masterUserId: string, userDistributions: seq<UserDistribution>)

  type Apps = map<string, ClientApp>

  /** `ClientAppService.getClientAppByUserId`. */
  function AppOfUser(apps: Apps, userId: string): Option<ClientApp> {
    var r := Parse(userId);
    if r.IsValid() && r.appName.value in apps then Some(apps[r.appName.value]) else None
  }

  /** `ClientAppService.isMasterUserId`. */
  predicate IsMasterUser(apps: Apps, userId: string) {
    AppOfUser(apps, userId).Some? && AppOfUser(apps, userId).value.masterUserId == userId
  }

  /** The first range that contains the number. */
  function FindDistribution(ds: seq<UserDistribution>, number: int): (r: Option<string>)
    ensures r.Some? <==> exists i :: 0 <= i < |ds| && ds[i].Contains(number)
    ensures r.Some? ==> exists i :: 0 <= i < |ds| && ds[i].Contains(number) && ds[i].domain == r.value &&
                                    forall j :: 0 <= j < i ==> !ds[j].Contains(number)
  {
    if ds == [] then None
    else if ds[0].Contains(number) then Some(ds[0].domain)
    else
      var r := FindDistribution(ds[1..], number);
      assert forall i :: 1 <= i < |ds| ==> ds[1..][i - 1] == ds[i];
      assert r.Some? ==> exists i :: 0 <= i < |ds| - 1 && ds[1..][i].Contains(number);
      r
  }

  /** The domain the ranges assign to a user, when they assign one. */
  function HomeDomain(apps: Apps, userId: string): Option<string> {
    var app := AppOfUser(apps, userId);
    if app.None? then None
    else FindDistribution(app.value.userDistributions, Parse(userId).number.value)
  }

  /** `ClientAppService.resolveDomain`: a user outside every range belongs to the domain that asks. */
  function ResolveDomain(apps: Apps, current: string, userId: string): string {
    var home := HomeDomain(apps, userId);
    if home.Some? then home.value else current
  }

  /** Two different domains agree on where a user lives exactly when the ranges cover the user. */
  lemma {:induction false} DomainsAgreeExactlyOnCoveredUsers(apps: Apps, d1: string, d2: string, userId: string)
    requires d1 != d2
    ensures ResolveDomain(apps, d1, userId) == ResolveDomain(apps, d2, userId) <==> HomeDomain(apps, userId).Some?
    ensures HomeDomain(apps, userId).Some? ==>
      exists i ::
        var ds := AppOfUser(apps, userId).value.userDistributions;
        0 <= i < |ds| && ds[i].Contains(Parse(userId).number.value) &&
        ds[i].domain == ResolveDomain(apps, d1, userId)
  {
  }

  /** The bounds of a range, when they are missing: nought and the largest long. */
  predicate InRange(d: UserDistribution, n: int) {
    && (match d.from case Some(low) => low <= n case None => 0 <= n)
    && (match d.to case Some(high) => n <= high case None => n <= 9223372036854775807)
  }

  lemma {:induction false} ContainsIsInRange(d: UserDistribution, n: int)
    ensures d.Contains(n) <==> InRange(d, n)
  {
  }

  predicate IsUserName(app: string, number: string, n: nat) {
    !IsBlank(app) && NoDash(app) && number != "" && NoDash(number) && ParseLong(number) == Some(n)
  }

  lemma {:induction false} HomeOfPair(apps: Apps, current: string, app: string, number: string, n: nat)
    requires IsUserName(app, number, n)
    ensures var home := if app in apps then FindDistribution(apps[app].userDistributions, n) else None;
      ResolveDomain(apps, current, app + "-" + number) == if home.Some? then home.value else current
  {
    ParseOfPair(app, number);
    hide Parse, ParseLong, FindDistribution;
  }

  lemma {:induction false} FirstIsUnique(ds: seq<UserDistribution>, n: int, i: nat)
    requires i < |ds| && ds[i].Contains(n) && forall j :: 0 <= j < i ==> !ds[j].Contains(n)
    ensures FindDistribution(ds, n) == Some(ds[i].domain)
  {
    hide UserDistribution.Contains;
  }

  /** User `app-n` lives where the first range of the app that covers `n` says. */
  lemma {:induction false} HomeIsFirstRange(apps: Apps, current: string, app: string, number: string, n: nat, i: nat)
    requires IsUserName(app, number, n) && app in apps && i < |apps[app].userDistributions|
    requires InRange(apps[app].userDistributions[i], n)
    requires forall j :: 0 <= j < i ==> !InRange(apps[app].userDistributions[j], n)
    ensures ResolveDomain(apps, current, app + "-" + number) == apps[app].userDistributions[i].domain
  {
    var ds := apps[app].userDistributions;
    hide *;
    HomeOfPair(apps, current, app, number, n);
    forall d: UserDistribution ensures d.Contains(n) <==> InRange(d, n) {
      ContainsIsInRange(d, n);
    }
    FirstIsUnique(ds, n, i);
  }

  /** Without such a range, or without the app, the user belongs to the domain that asks. */
  lemma {:induction false} HomelessBelongsHere(apps: Apps, current: string, app: string, number: string, n: nat)
    requires IsUserName(app, number, n)
    requires app in apps ==> forall d :: d in apps[app].userDistributions ==> !InRange(d, n)
    ensures ResolveDomain(apps, current, app + "-" + number) == current
  {
    hide *;
    HomeOfPair(apps, current, app, number, n);
    forall d: UserDistribution ensures d.Contains(n) <==> InRange(d, n) {
      ContainsIsInRange(d, n);
    }
  }

  /** So does whoever is not named `app-number`. */
  lemma {:induction false} NamelessBelongsHere(apps: Apps, current: string, userId: string)
    requires |Split(userId)| != 2 || IsBlank(Split(userId)[0]) || ParseLong(Split(userId)[1]).None?
    ensures AppOfUser(apps, userId) == None && ResolveDomain(apps, current, userId) == current
  {
  }

  /** "Processor" is no `app-number` name, so every domain takes it for its own. */
  lemma {:induction false} ProcessorHasNoHome(apps: Apps)
    ensures HomeDomain(apps, PROCESSOR) == None
  {
    TokenLengthOf(PROCESSOR, "");
    assert PROCESSOR + "" == PROCESSOR;
    assert PROCESSOR[..9] == PROCESSOR && PROCESSOR[9..] == "";
  }
}
