/** The dashboard shell (src/app/dashboard/page.tsx): the start-up decision chain that finds the
    signed-in user, the monthly statistics, the view that is rendered, and the tab screens with
    the properties they receive. Whether the backend is configured, the auth answer, the users-row
    answer and the start of the current month are parameters. */
module Dashboard {
  import opened Wrappers
  import opened Types
  import Seqs
  import opened Backend

  // ---------------------------------------------------------------------------------------------
  // Monthly statistics

  /** Lexicographic order on texts, the order of ISO-8601 timestamps. */
  predicate LexLess(a: string, b: string)
    decreases |a|
  {
    if b == [] then false
    else if a == [] then true
    else if a[0] != b[0] then a[0] < b[0]
    else LexLess(a[1..], b[1..])
  }

  /** A timestamp equal to the start of the month is not before it. */
  lemma {:induction false} LexLessIrreflexive(a: string)
    ensures !LexLess(a, a)
  {
    if a != [] {
      LexLessIrreflexive(a[1..]);
    }
  }

  /** No timestamp is both before and after another one. */
  lemma {:induction false} LexLessAsymmetric(a: string, b: string)
    ensures !(LexLess(a, b) && LexLess(b, a))
  {
    if a != [] && b != [] && a[0] == b[0] {
      LexLessAsymmetric(a[1..], b[1..]);
    }
  }

  /** `.eq('user_id', userId).gte('created_at', since)`: a row with no timestamp never passes. */
  predicate InMonth(o: Orcamento, userId: string, since: string)
  {
    o.user_id == userId && o.created_at.Some? && !LexLess(o.created_at.value, since)
  }

  function InMonthOf(userId: string, since: string): Orcamento -> bool
  {
    (o: Orcamento) => InMonth(o, userId, since)
  }

  /** The quotes `loadStats` receives, in table order. */
  function MonthQuotes(rows: seq<Orcamento>, userId: string, since: string): (r: seq<Orcamento>)
    ensures |r| <= |rows|
    ensures forall x :: x in r <==> x in rows && InMonth(x, userId, since)
  {
    Seqs.FilterMember(rows, InMonthOf(userId, since));
    Seqs.Filter(rows, InMonthOf(userId, since))
  }

  /** A quote created exactly at the start of the month is counted. */
  lemma MonthQuotesIncludesStart(rows: seq<Orcamento>, userId: string, since: string, k: nat)
    requires k < |rows| && rows[k].user_id == userId && rows[k].created_at == Some(since)
    ensures rows[k] in MonthQuotes(rows, userId, since)
  {
    LexLessIrreflexive(since);
  }

  /** A quote created after the start of the month is counted, and one created before it is
      not. */
  lemma MonthQuotesOrder(rows: seq<Orcamento>, userId: string, since: string, k: nat)
    requires k < |rows| && rows[k].user_id == userId && rows[k].created_at.Some?
    ensures LexLess(since, rows[k].created_at.value) ==> rows[k] in MonthQuotes(rows, userId, since)
    ensures LexLess(rows[k].created_at.value, since) ==> rows[k] !in MonthQuotes(rows, userId, since)
  {
    LexLessAsymmetric(since, rows[k].created_at.value);
  }

  datatype Stats = Stats(orcamentosNoMes: nat, totalAprovado: real, taxaAprovacao: int)

  const ZeroStats := Stats(0, 0.0, 0)

  function QuoteTotal(o: Orcamento): real
  {
    o.total
  }

  function IsApproved(o: Orcamento): bool
  {
    o.status == Aprovado
  }

  /** `orcamentos.filter(orc => orc.status === 'aprovado').length`. */
  function ApprovedCount(rows: seq<Orcamento>): (n: nat)
    ensures n <= |rows|
  {
    |Seqs.Filter(rows, IsApproved)|
  }

  /** The approved count is a count: none for no quotes, and one more exactly for each further
      quote whose status is `aprovado`. */
  lemma ApprovedCountAppend(rows: seq<Orcamento>, o: Orcamento)
    ensures ApprovedCount([]) == 0
    ensures ApprovedCount(rows + [o]) == ApprovedCount(rows) + (if o.status == Aprovado then 1 else 0)
  {
    Seqs.FilterAppend(rows, [o], IsApproved);
    assert Seqs.Filter([o], IsApproved) == if IsApproved(o) then [o] else [];
  }

  /** `Math.round`: the nearest integer, halves rounding up. */
  function Round(x: real): (r: int)
    ensures x - 0.5 < r as real <= x + 0.5
  {
    (x + 0.5).Floor
  }

  /** The approval rate in percent before rounding, 0 for an empty month. */
  function Rate(approved: nat, count: nat): (x: real)
    requires approved <= count
    ensures 0.0 <= x <= 100.0
    ensures count == 0 ==> x == 0.0
    ensures count > 0 ==> x * count as real == 100.0 * approved as real
  {
    if count > 0 then
      var q := approved as real / count as real;
      assert q * count as real == approved as real;
      q * 100.0
    else 0.0
  }

  /** The three statistics: the number of quotes of the month, the sum of all their totals
      whatever their status, and the rounded approval rate, which lies between 0 and 100. */
  function ComputeStats(rows: seq<Orcamento>): (s: Stats)
    ensures s.orcamentosNoMes == |rows|
    ensures s.totalAprovado == Seqs.SumBy(rows, QuoteTotal)
    ensures 0 <= s.taxaAprovacao <= 100
    ensures rows != [] ==> s.taxaAprovacao == Round(100.0 * ApprovedCount(rows) as real / |rows| as real)
    ensures rows == [] ==> s == ZeroStats
  {
    var taxa := Rate(ApprovedCount(rows), |rows|);
    assert rows != [] ==> taxa == 100.0 * ApprovedCount(rows) as real / |rows| as real;
    assert Round(100.0) == 100;
    assert Round(0.0) == 0;
    Stats(|rows|, Seqs.SumBy(rows, QuoteTotal), Round(taxa))
  }

  /** A month in which every quote is approved shows 100%. */
  lemma AllApprovedRate(rows: seq<Orcamento>)
    requires rows != []
    requires forall k :: 0 <= k < |rows| ==> rows[k].status == Aprovado
    ensures ComputeStats(rows).taxaAprovacao == 100
  {
    Seqs.FilterAll(rows, IsApproved);
    assert ApprovedCount(rows) == |rows|;
    RateFull(|rows|);
    assert Round(100.0) == 100;
  }

  lemma RateFull(n: nat)
    requires n > 0
    ensures Rate(n, n) == 100.0
  {
    var x := n as real;
    assert x / x == 1.0;
  }

  /** A month in which no quote is approved shows 0%. */
  lemma NoneApprovedRate(rows: seq<Orcamento>)
    requires forall k :: 0 <= k < |rows| ==> rows[k].status != Aprovado
    ensures ComputeStats(rows).taxaAprovacao == 0
  {
    Seqs.FilterNone(rows, IsApproved);
    assert Rate(0, |rows|) == 0.0;
    assert Round(0.0) == 0;
  }

  /** The "approved total" ignores the status: two months with the same totals show the same
      sum however their quotes were decided. */
  lemma TotalIgnoresStatus(rows: seq<Orcamento>, decided: seq<Orcamento>)
    requires |rows| == |decided|
    requires forall k :: 0 <= k < |rows| ==> decided[k] == rows[k].(status := decided[k].status)
    ensures ComputeStats(decided).totalAprovado == ComputeStats(rows).totalAprovado
  {
    Seqs.SumByEqual(rows, decided, QuoteTotal);
  }

  // ---------------------------------------------------------------------------------------------
  // Start-up

  /** What `supabase.auth.getUser()` gives: an error (returned or thrown), no session, or the
      authenticated user with an email that may be missing. */
  datatype Auth = AuthFailed | NoSession | Session(id: string, email: Option<string>)

  /** What the users-row query gives: an error (returned or thrown), the row, or no data without
      an error. */
  datatype Lookup = LookupFailed | Row(u: User) | NoData

  const NotConfigured := "Supabase não configurado"
  const Home := "/"

  /** The user the shell falls back on when the users row cannot be read: the auth id, the auth
      email or '' (`authUser.email || ''`), and the free plan. */
  function FallbackUser(id: string, email: Option<string>): (u: User)
    ensures u.id == id && !u.plano_pro
    ensures email.Some? ==> u.email == email.value
    ensures email.None? ==> u.email == ""
  {
    User(id, if email.Some? then email.value else "", false)
  }

  datatype Tab = DashboardTab | EmpresaTab | ClientesTab | ItensTab | NovoTab | OrcamentosTab | ProTab

  /** What is rendered: the spinner, the configuration screen, nothing, or the shell. */
  datatype View = Spinner | ConfigError | Blank | Main(user: User, tab: Tab)

  /** The properties a tab's component receives: none for the statistics tab, the user id for
      the profile and the clients, and the id with the plan flag for the rest. */
  datatype Props = NoProps | UserProps(userId: string) | PlanProps(userId: string, isPro: bool)

  function TabProps(tab: Tab, u: User): Props
  {
    match tab
    case DashboardTab => NoProps
    case EmpresaTab => UserProps(u.id)
    case ClientesTab => UserProps(u.id)
    case ItensTab => PlanProps(u.id, u.plano_pro)
    case NovoTab => PlanProps(u.id, u.plano_pro)
    case OrcamentosTab => PlanProps(u.id, u.plano_pro)
    case ProTab => PlanProps(u.id, u.plano_pro)
  }

  /** The tabs that gate features behind the paid plan. */
  predicate PlanGated(tab: Tab)
  {
    tab == ItensTab || tab == NovoTab || tab == OrcamentosTab || tab == ProTab
  }

  /** Every tab screen acts for the signed-in user, and exactly the gated ones receive the plan
      flag, which is the user's own `plano_pro`. */
  lemma TabPropsFaithful(tab: Tab, u: User)
    ensures tab != DashboardTab ==> TabProps(tab, u).userId == u.id
    ensures TabProps(tab, u).PlanProps? <==> PlanGated(tab)
    ensures TabProps(tab, u).PlanProps? ==> TabProps(tab, u).isPro == u.plano_pro
  {
  }

  class Shell {
    const db: Db
    var user: Option<User>
    var loading: bool
    var error: Option<string>
    var activeTab: Tab
    var stats: Stats
    var redirect: Option<string>

    constructor (db: Db)
      ensures this.db == db
      ensures user.None? && loading && error.None? && activeTab == DashboardTab
      ensures stats == ZeroStats && redirect.None?
    {
      this.db := db;
      user, loading, error, activeTab := None, true, None, DashboardTab;
      stats, redirect := ZeroStats, None;
    }

    /** The rendered view. */
    function Render(): (v: View)
      reads this
      ensures v.Main? <==> !loading && error.None? && user.Some?
      ensures v.Main? ==> v.user == user.value && v.tab == activeTab
    {
      if loading then Spinner
      else if error.Some? then ConfigError
      else if user.None? then Blank
      else Main(user.value, activeTab)
    }

    /** `checkUser`: not configured, or an auth failure, ends in the configuration screen (and
        without configuration no auth call is made); no session redirects home with the spinner
        left on; otherwise the users row, or the fallback user when it cannot be read, is taken
        and loading ends. */
    method CheckUser(configured: bool, auth: Auth, lookup: Lookup) returns (authCalled: bool, lookupCalled: bool)
      modifies this`user, this`loading, this`error, this`redirect
      ensures authCalled == configured
      ensures lookupCalled <==> configured && auth.Session?
      ensures !configured || auth.AuthFailed? ==>
                error == Some(NotConfigured) && !loading && user == old(user) && redirect == old(redirect)
      ensures configured && auth.NoSession? ==>
                redirect == Some(Home) && loading == old(loading) && error == old(error) && user == old(user)
      ensures configured && auth.Session? ==> !loading && error == old(error) && redirect == old(redirect)
      ensures configured && auth.Session? && lookup.LookupFailed? ==> user == Some(FallbackUser(auth.id, auth.email))
      ensures configured && auth.Session? && lookup.Row? ==> user == Some(lookup.u)
      ensures configured && auth.Session? && lookup.NoData? ==> user == old(user)
    {
      authCalled, lookupCalled := false, false;
      if !configured {
        error := Some(NotConfigured);
        loading := false;
        return;
      }
      authCalled := true;
      match auth {
        case AuthFailed =>
          error := Some(NotConfigured);
          loading := false;
        case NoSession =>
          redirect := Some(Home);
        case Session(id, email) =>
          lookupCalled := true;
          match lookup {
            case LookupFailed =>
              user := Some(FallbackUser(id, email));
            case Row(u) =>
              user := Some(u);
            case NoData =>
          }
          loading := false;
      }
    }

    /** `loadStats`: nothing without a user or a configured backend, or when the query fails;
        otherwise the statistics of the user's quotes since `monthStart`. */
    method LoadStats(configured: bool, monthStart: string, queryOk: bool)
      modifies this`stats
      ensures user.None? || !configured || !queryOk ==> stats == old(stats)
      ensures user.Some? && configured && queryOk ==>
                stats == ComputeStats(MonthQuotes(db.orcamentos, user.value.id, monthStart))
    {
      if user.None? || !configured || !queryOk {
        return;
      }
      stats := ComputeStats(MonthQuotes(db.orcamentos, user.value.id, monthStart));
    }

    /** `handleLogout`: the session is closed only when the backend is configured; the shell
        always goes home. */
    method HandleLogout(configured: bool) returns (signOutCalled: bool)
      modifies this`redirect
      ensures signOutCalled == configured && redirect == Some(Home)
    {
      signOutCalled := configured;
      redirect := Some(Home);
    }

    /** A tab click. */
    method SelectTab(tab: Tab)
      modifies this`activeTab
      ensures activeTab == tab
    {
      activeTab := tab;
    }
  }
}
