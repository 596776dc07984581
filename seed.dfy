/** The seed collections of lib/mock-data.ts and the query helpers over
    them. Dates are the UTC milliseconds of the written dates. */
module MockData {
  import opened Types
  import opened Lists
  import opened Text
  import opened Numbering

  const Client1: Client :=
    Client("client-1", "Mehmet Kaya", "mehmet@acmeinc.com", "+90 533 111 2222", "ACME Inc.", Some("Levent, İstanbul"), Active, 3, 245000, 1705276800000)

  const Client2: Client :=
    Client("client-2", "Ayşe Demir", "ayse@techflow.io", "+90 534 222 3333", "TechFlow", Some("Kadıköy, İstanbul"), Active, 2, 180000, 1708387200000)

  const Client3: Client :=
    Client("client-3", "Ali Öztürk", "ali@globalunion.org", "+90 535 333 4444", "Global Union", Some("Çankaya, Ankara"), Active, 1, 75000, 1710028800000)

  const Client4: Client :=
    Client("client-4", "Zeynep Arslan", "zeynep@codecraft.dev", "+90 536 444 5555", "CodeCraft", Some("Alsancak, İzmir"), Inactive, 1, 45000, 1712275200000)

  const Client5: Client :=
    Client("client-5", "Can Yıldız", "can@digitalnexus.co", "+90 537 555 6666", "Digital Nexus", Some("Beşiktaş, İstanbul"), Active, 2, 320000, 1715472000000)

  const Clients: seq<Client> := [Client1, Client2, Client3, Client4, Client5]

  const Project1: Project :=
    Project("proj-1", "E-Ticaret Platformu",
      "Kapsamlı bir e-ticaret platformu geliştirme projesi. Ürün yönetimi, sepet, ödeme entegrasyonu ve admin paneli içerir.",
      "client-1", Some("ACME Inc."), InProgress, 1717200000000, 1727654400000, 150000, 65,
      Some([
        Task("t1", "Veritabanı tasarımı", true, None),
        Task("t2", "API geliştirme", true, None),
        Task("t3", "Frontend geliştirme", false, None),
        Task("t4", "Ödeme entegrasyonu", false, None),
        Task("t5", "Test ve QA", false, None)]),
      1715731200000)

  const Project2: Project :=
    Project("proj-2", "Mobil Uygulama",
      "iOS ve Android için native mobil uygulama geliştirme.",
      "client-2", Some("TechFlow"), Planning, 1722470400000, 1735603200000, 200000, 10,
      Some([
        Task("t1", "Gereksinim analizi", true, None),
        Task("t2", "UI/UX tasarımı", false, None),
        Task("t3", "iOS geliştirme", false, None),
        Task("t4", "Android geliştirme", false, None)]),
      1719792000000)

  const Project3: Project :=
    Project("proj-3", "CRM Sistemi",
      "Özelleştirilmiş müşteri ilişkileri yönetim sistemi.",
      "client-1", Some("ACME Inc."), Completed, 1705276800000, 1717027200000, 95000, 100,
      Some([
        Task("t1", "Analiz", true, None),
        Task("t2", "Geliştirme", true, None),
        Task("t3", "Test", true, None),
        Task("t4", "Deployment", true, None)]),
      1704844800000)

  const Project4: Project :=
    Project("proj-4", "Web Sitesi Yenileme",
      "Kurumsal web sitesi modern tasarım ile yenileme.",
      "client-3", Some("Global Union"), Review, 1719792000000, 1723680000000, 45000, 85,
      Some([
        Task("t1", "Tasarım", true, None),
        Task("t2", "Geliştirme", true, None),
        Task("t3", "İçerik girişi", true, None),
        Task("t4", "Son kontroller", false, None)]),
      1718841600000)

  const Project5: Project :=
    Project("proj-5", "API Entegrasyonu",
      "Üçüncü parti API entegrasyonları ve otomasyon.",
      "client-5", Some("Digital Nexus"), InProgress, 1721001600000, 1726358400000, 75000, 40,
      Some([
        Task("t1", "API analizi", true, None),
        Task("t2", "Entegrasyon geliştirme", false, None),
        Task("t3", "Test", false, None)]),
      1720569600000)

  const Project6: Project :=
    Project("proj-6", "Dashboard Geliştirme",
      "Veri analitik dashboard geliştirme projesi.",
      "client-5", Some("Digital Nexus"), OnHold, 1725148800000, 1732924800000, 120000, 0,
      Some([]),
      1723680000000)

  const Projects: seq<Project> := [Project1, Project2, Project3, Project4, Project5, Project6]

  const Proposal1: Proposal :=
    Proposal("prop-1", "TEK-2024-001", "client-2", Some("TechFlow"), "Mobil Uygulama",
      Some("iOS ve Android platformları için tam kapsamlı mobil uygulama geliştirme teklifi."),
      200000, ProposalStatus.Accepted, 1723680000000,
      Some([
        ProposalItem("i1", "UI/UX Tasarım", 1, 30000, 30000),
        ProposalItem("i2", "iOS Geliştirme", 1, 75000, 75000),
        ProposalItem("i3", "Android Geliştirme", 1, 75000, 75000),
        ProposalItem("i4", "Test ve QA", 1, 20000, 20000)]),
      1719792000000)

  const Proposal2: Proposal :=
    Proposal("prop-2", "TEK-2024-002", "client-3", Some("Global Union"), "Web Sitesi Yenileme",
      Some("Kurumsal web sitesi yenileme ve modernizasyon teklifi."),
      45000, ProposalStatus.Accepted, 1721001600000,
      Some([
        ProposalItem("i1", "Tasarım", 1, 15000, 15000),
        ProposalItem("i2", "Geliştirme", 1, 25000, 25000),
        ProposalItem("i3", "SEO Optimizasyonu", 1, 5000, 5000)]),
      1718841600000)

  const Proposal3: Proposal :=
    Proposal("prop-3", "TEK-2024-003", "client-4", Some("CodeCraft"), "SaaS Platform",
      Some("Yeni SaaS platformu geliştirme teklifi."),
      350000, ProposalStatus.Sent, 1727654400000,
      Some([
        ProposalItem("i1", "Mimari Tasarım", 1, 50000, 50000),
        ProposalItem("i2", "Backend Geliştirme", 1, 150000, 150000),
        ProposalItem("i3", "Frontend Geliştirme", 1, 100000, 100000),
        ProposalItem("i4", "DevOps & Deployment", 1, 50000, 50000)]),
      1722470400000)

  const Proposal4: Proposal :=
    Proposal("prop-4", "TEK-2024-004", "client-1", Some("ACME Inc."), "Bakım ve Destek Paketi",
      Some("Yıllık bakım ve teknik destek hizmeti teklifi."),
      48000, ProposalStatus.Draft, 1728950400000,
      Some([
        ProposalItem("i1", "Aylık Bakım", 12, 3000, 36000),
        ProposalItem("i2", "Acil Destek Kredisi", 1, 12000, 12000)]),
      1723248000000)

  const Proposal5: Proposal :=
    Proposal("prop-5", "TEK-2024-005", "client-5", Some("Digital Nexus"), "Veri Analitik Platformu",
      Some("Özelleştirilmiş veri analitik ve raporlama platformu."),
      280000, ProposalStatus.Rejected, 1722470400000,
      Some([
        ProposalItem("i1", "Veri Modelleme", 1, 40000, 40000),
        ProposalItem("i2", "Dashboard Geliştirme", 1, 120000, 120000),
        ProposalItem("i3", "Entegrasyonlar", 1, 80000, 80000),
        ProposalItem("i4", "Eğitim", 1, 40000, 40000)]),
      1721001600000)

  const Proposals: seq<Proposal> := [Proposal1, Proposal2, Proposal3, Proposal4, Proposal5]

  const Contract1: Contract :=
    Contract("cont-1", "SÖZ-2024-001", "proj-1", Some("E-Ticaret Platformu"), "client-1", Some("ACME Inc."),
      Signed, Some("E-Ticaret Platformu Geliştirme Sözleşmesi..."), Some(1716163200000), 1715731200000)

  const Contract2: Contract :=
    Contract("cont-2", "SÖZ-2024-002", "proj-2", Some("Mobil Uygulama"), "client-2", Some("TechFlow"),
      Signed, Some("Mobil Uygulama Geliştirme Sözleşmesi..."), Some(1721865600000), 1721433600000)

  const Contract3: Contract :=
    Contract("cont-3", "SÖZ-2024-003", "proj-4", Some("Web Sitesi Yenileme"), "client-3", Some("Global Union"),
      Signed, Some("Web Sitesi Yenileme Sözleşmesi..."), Some(1719532800000), 1719273600000)

  const Contract4: Contract :=
    Contract("cont-4", "SÖZ-2024-004", "proj-5", Some("API Entegrasyonu"), "client-5", Some("Digital Nexus"),
      PendingSignature, Some("API Entegrasyonu Sözleşmesi..."), None, 1720742400000)

  const Contract5: Contract :=
    Contract("cont-5", "SÖZ-2024-005", "proj-6", Some("Dashboard Geliştirme"), "client-5", Some("Digital Nexus"),
      ContractStatus.Draft, Some("Dashboard Geliştirme Sözleşmesi..."), None, 1723248000000)

  const Contracts: seq<Contract> := [Contract1, Contract2, Contract3, Contract4, Contract5]

  const Note1: ClientNote :=
    ClientNote("note-1", "client-1", 1723298400000,
      "E-ticaret projesi için detaylı gereksinim toplantısı yapıldı. Müşteri özellikle ödeme entegrasyonları konusunda hassas. Stripe ve iyzico entegrasyonu isteniyor.",
      Meeting)

  const Note2: ClientNote :=
    ClientNote("note-2", "client-1", 1723113000000,
      "Proje ilerleme durumu hakkında telefon görüşmesi. API geliştirmesi tamamlandı, frontend çalışmaları devam ediyor.",
      Call)

  const Note3: ClientNote :=
    ClientNote("note-3", "client-1", 1722848400000,
      "Haftalık ilerleme raporu mail ile gönderildi. Sprint hedefleri ve tamamlanan görevler paylaşıldı.",
      Email)

  const Note4: ClientNote :=
    ClientNote("note-4", "client-2", 1723219200000,
      "Mobil uygulama için UI/UX tasarım toplantısı. Figma üzerinden tasarımlar incelendi, renk paleti onaylandı.",
      Meeting)

  const Note5: ClientNote :=
    ClientNote("note-5", "client-2", 1722942000000,
      "iOS ve Android için native geliştirme yaklaşımı onaylandı. React Native yerine Swift ve Kotlin tercih edildi.",
      Call)

  const Note6: ClientNote :=
    ClientNote("note-6", "client-3", 1723041000000,
      "Web sitesi yenileme projesi için son kontroller yapıldı. İçerik girişi tamamlandı, SEO optimizasyonu kaldı.",
      Meeting)

  const Note7: ClientNote :=
    ClientNote("note-7", "client-5", 1723129200000,
      "API entegrasyon projesi kickoff toplantısı. Teknik gereksinimler ve timeline belirlendi.",
      Meeting)

  const ClientNotes: seq<ClientNote> := [Note1, Note2, Note3, Note4, Note5, Note6, Note7]

  const Showcase1: Showcase :=
    Showcase("showcase-1", "proj-1", "E-Ticaret Platformu - Teklif Detayları",
      "ACME Inc. için hazırlanan kapsamlı e-ticaret platformu projesi teklifimizi aşağıda bulabilirsiniz. Bu platform, modern altyapısı ve güçlü özellikleriyle satışlarınızı artırmanıza yardımcı olacaktır.",
      [
        ShowcaseItem("si-1", "Ürün Yönetim Modülü",
          "Kategori yönetimi, varyant desteği, toplu ürün yükleme, stok takibi",
          1, 25000, Feature),
        ShowcaseItem("si-2", "Sepet ve Ödeme Sistemi",
          "Güvenli sepet yönetimi, çoklu ödeme entegrasyonu (Stripe, iyzico), kupon sistemi",
          1, 35000, Feature),
        ShowcaseItem("si-3", "Admin Paneli",
          "Sipariş yönetimi, müşteri yönetimi, raporlama, dashboard",
          1, 30000, Feature),
        ShowcaseItem("si-4", "Responsive Tasarım",
          "Mobil uyumlu, SEO dostu, hızlı yüklenen frontend",
          1, 20000, Feature),
        ShowcaseItem("si-5", "API Geliştirme",
          "RESTful API, dokümantasyon, 3. parti entegrasyon desteği",
          1, 25000, Service),
        ShowcaseItem("si-6", "6 Ay Teknik Destek",
          "Bug fix, güvenlik güncellemeleri, teknik danışmanlık",
          6, 2500, Support)],
      150000, Some(0), 150000,
      Some("Proje tamamlandıktan sonra 6 ay ücretsiz teknik destek dahildir. Ek özellik talepleri ayrıca değerlendirilecektir."),
      ShowcaseStatus.Sent, Some(1717200000000), Some(1717286400000), None, 1716854400000, 1717027200000)

  const Showcase2: Showcase :=
    Showcase("showcase-2", "proj-2", "Mobil Uygulama - Proje Teklifi",
      "TechFlow için tasarlanan iOS ve Android mobil uygulama projemizin detaylarını sunuyoruz. Modern teknolojiler ve native geliştirme yaklaşımıyla yüksek performanslı bir uygulama sunacağız.",
      [
        ShowcaseItem("si-1", "UI/UX Tasarım",
          "Kullanıcı araştırması, wireframe, yüksek kaliteli tasarım, prototip",
          1, 30000, Feature),
        ShowcaseItem("si-2", "iOS Uygulama Geliştirme",
          "Swift ile native iOS uygulaması, App Store yayınlama",
          1, 75000, Feature),
        ShowcaseItem("si-3", "Android Uygulama Geliştirme",
          "Kotlin ile native Android uygulaması, Play Store yayınlama",
          1, 75000, Feature),
        ShowcaseItem("si-4", "Test ve QA",
          "Otomatik testler, manuel test, performans optimizasyonu",
          1, 20000, Service)],
      200000, Some(0), 200000,
      Some("Uygulama yayınlandıktan sonra 3 ay ücretsiz hata düzeltme desteği verilecektir."),
      ShowcaseStatus.Accepted, Some(1720137600000), Some(1720224000000), Some(1720569600000), 1719792000000, 1720569600000)

  const Showcase3: Showcase :=
    Showcase("showcase-3", "proj-5", "API Entegrasyonu - Proje Detayları",
      "Digital Nexus için hazırlanan API entegrasyon projesi detaylarını içerir. Mevcut sistemlerinizi üçüncü parti servislerle güvenli ve verimli şekilde entegre edeceğiz.",
      [
        ShowcaseItem("si-1", "API Analiz ve Planlama",
          "Mevcut sistem analizi, entegrasyon stratejisi, teknik dokümantasyon",
          1, 15000, Service),
        ShowcaseItem("si-2", "Ödeme Sistemleri Entegrasyonu",
          "Stripe, PayPal, iyzico entegrasyonları",
          3, 10000, Feature),
        ShowcaseItem("si-3", "CRM Entegrasyonu",
          "Salesforce, HubSpot bağlantısı, veri senkronizasyonu",
          1, 20000, Feature),
        ShowcaseItem("si-4", "Webhook ve Otomasyon",
          "Event-driven mimari, otomatik iş akışları",
          1, 15000, Feature)],
      80000, Some(5000), 75000,
      Some("Erken teslim için %5 indirim uygulanmıştır."),
      ShowcaseStatus.Draft, None, None, None, 1720569600000, 1720742400000)

  const Showcases: seq<Showcase> := [Showcase1, Showcase2, Showcase3]

  // ------------------------------------------------------------ lookups by id
  //
  // The helpers search the seed constants above; each is written over the
  // collection it searches, and `GetClientById(id)` of the source is
  // `ClientById(Clients, id)` here.

  /** `clients.find(c => c.id === id)`. */
  function ClientById(cs: seq<Client>, id: string): (r: Option<Client>)
    ensures r.Some? <==> exists i :: 0 <= i < |cs| && cs[i].id == id
    ensures r.Some? ==> exists i :: 0 <= i < |cs| && r.value == cs[i] && cs[i].id == id
                          && forall j :: 0 <= j < i ==> cs[j].id != id
  {
    Find(cs, (c: Client) => c.id == id)
  }

  /** `projects.find(p => p.id === id)`. */
  function ProjectById(ps: seq<Project>, id: string): (r: Option<Project>)
    ensures r.Some? <==> exists i :: 0 <= i < |ps| && ps[i].id == id
    ensures r.Some? ==> exists i :: 0 <= i < |ps| && r.value == ps[i] && ps[i].id == id
                          && forall j :: 0 <= j < i ==> ps[j].id != id
  {
    Find(ps, (p: Project) => p.id == id)
  }

  /** `proposals.find(p => p.id === id)`. */
  function ProposalById(ps: seq<Proposal>, id: string): (r: Option<Proposal>)
    ensures r.Some? <==> exists i :: 0 <= i < |ps| && ps[i].id == id
    ensures r.Some? ==> exists i :: 0 <= i < |ps| && r.value == ps[i] && ps[i].id == id
                          && forall j :: 0 <= j < i ==> ps[j].id != id
  {
    Find(ps, (p: Proposal) => p.id == id)
  }

  /** `contracts.find(c => c.id === id)`. */
  function ContractById(cs: seq<Contract>, id: string): (r: Option<Contract>)
    ensures r.Some? <==> exists i :: 0 <= i < |cs| && cs[i].id == id
    ensures r.Some? ==> exists i :: 0 <= i < |cs| && r.value == cs[i] && cs[i].id == id
                          && forall j :: 0 <= j < i ==> cs[j].id != id
  {
    Find(cs, (c: Contract) => c.id == id)
  }

  /** `projectShowcases.find(s => s.projectId === projectId)`: the first
      showcase of the project. */
  function ShowcaseByProjectId(ss: seq<Showcase>, projectId: string): (r: Option<Showcase>)
    ensures r.Some? <==> exists i :: 0 <= i < |ss| && ss[i].projectId == projectId
    ensures r.Some? ==> exists i :: 0 <= i < |ss| && r.value == ss[i] && ss[i].projectId == projectId
                          && forall j :: 0 <= j < i ==> ss[j].projectId != projectId
  {
    Find(ss, (s: Showcase) => s.projectId == projectId)
  }

  /** `projectShowcases.find(s => s.id === id)`. */
  function ShowcaseById(ss: seq<Showcase>, id: string): (r: Option<Showcase>)
    ensures r.Some? <==> exists i :: 0 <= i < |ss| && ss[i].id == id
    ensures r.Some? ==> exists i :: 0 <= i < |ss| && r.value == ss[i] && ss[i].id == id
                          && forall j :: 0 <= j < i ==> ss[j].id != id
  {
    Find(ss, (s: Showcase) => s.id == id)
  }

  // ------------------------------------------------------- lists by client id

  /** `projects.filter(p => p.clientId === clientId)`: exactly the client's
      projects, in their order. */
  function ProjectsByClientId(ps: seq<Project>, clientId: string): (r: seq<Project>)
    ensures forall i :: 0 <= i < |r| ==> r[i].clientId == clientId
    ensures forall p :: p in r <==> p in ps && p.clientId == clientId
    ensures forall p :: multiset(r)[p] == if p.clientId == clientId then multiset(ps)[p] else 0
    ensures IsSubsequence(r, ps)
  {
    var f := (p: Project) => p.clientId == clientId;
    FilterIsSubsequence(ps, f);
    forall p ensures p in Filter(ps, f) <==> p in ps && f(p) {
      FilterMember(ps, f, p);
    }
    forall p ensures multiset(Filter(ps, f))[p] == if f(p) then multiset(ps)[p] else 0 {
      FilterMultiplicity(ps, f, p);
    }
    Filter(ps, f)
  }

  /** `proposals.filter(p => p.clientId === clientId)`. */
  function ProposalsByClientId(ps: seq<Proposal>, clientId: string): (r: seq<Proposal>)
    ensures forall i :: 0 <= i < |r| ==> r[i].clientId == clientId
    ensures forall p :: p in r <==> p in ps && p.clientId == clientId
    ensures forall p :: multiset(r)[p] == if p.clientId == clientId then multiset(ps)[p] else 0
    ensures IsSubsequence(r, ps)
  {
    var f := (p: Proposal) => p.clientId == clientId;
    FilterIsSubsequence(ps, f);
    forall p ensures p in Filter(ps, f) <==> p in ps && f(p) {
      FilterMember(ps, f, p);
    }
    forall p ensures multiset(Filter(ps, f))[p] == if f(p) then multiset(ps)[p] else 0 {
      FilterMultiplicity(ps, f, p);
    }
    Filter(ps, f)
  }

  /** `contracts.filter(c => c.clientId === clientId)`. */
  function ContractsByClientId(cs: seq<Contract>, clientId: string): (r: seq<Contract>)
    ensures forall i :: 0 <= i < |r| ==> r[i].clientId == clientId
    ensures forall c :: c in r <==> c in cs && c.clientId == clientId
    ensures forall c :: multiset(r)[c] == if c.clientId == clientId then multiset(cs)[c] else 0
    ensures IsSubsequence(r, cs)
  {
    var f := (c: Contract) => c.clientId == clientId;
    FilterIsSubsequence(cs, f);
    forall c ensures c in Filter(cs, f) <==> c in cs && f(c) {
      FilterMember(cs, f, c);
    }
    forall c ensures multiset(Filter(cs, f))[c] == if f(c) then multiset(cs)[c] else 0 {
      FilterMultiplicity(cs, f, c);
    }
    Filter(cs, f)
  }

  function NoteOf(clientId: string): ClientNote -> bool {
    (n: ClientNote) => n.clientId == clientId
  }

  /** The comparator `b.date - a.date` is an ascending sort on the negated
      date. */
  function NewestFirst(n: ClientNote): int {
    -n.date
  }

  /** The client's notes, newest first; notes of the same moment keep the
      order they have in the list, since `sort` is stable. */
  function NotesByClientId(ns: seq<ClientNote>, clientId: string): (r: seq<ClientNote>)
    ensures forall i, j :: 0 <= i < j < |r| ==> r[i].date >= r[j].date
    ensures forall n :: n in r <==> n in ns && n.clientId == clientId
    ensures multiset(r) == multiset(Filter(ns, NoteOf(clientId)))
    ensures forall d :: Filter(r, KeyIs(NewestFirst, d)) == Filter(Filter(ns, NoteOf(clientId)), KeyIs(NewestFirst, d))
  {
    var r := SortByKey(Filter(ns, NoteOf(clientId)), NewestFirst);
    forall d ensures Filter(r, KeyIs(NewestFirst, d)) == Filter(Filter(ns, NoteOf(clientId)), KeyIs(NewestFirst, d)) {
      SortByKeyStable(Filter(ns, NoteOf(clientId)), NewestFirst, d);
    }
    assert SortedBy(r, NewestFirst);
    forall n ensures n in r <==> n in ns && NoteOf(clientId)(n) {
      FilterMember(ns, NoteOf(clientId), n);
      assert n in r <==> n in multiset(r);
    }
    r
  }

  // ----------------------------------------------------------- dashboard stats

  datatype StatusCounts = StatusCounts(planning: nat, inProgress: nat, review: nat, completed: nat, onHold: nat)

  datatype DashboardStats = DashboardStats(
    totalProjects: nat,
    activeClients: nat,
    pendingProposals: nat,
    totalRevenue: int,
    projectsByStatus: StatusCounts)

  /** `projects.filter(p => p.status === st).length`. */
  function CountStatus(ps: seq<Project>, st: ProjectStatus): nat {
    Count(ps, (p: Project) => p.status == st)
  }

  function StatusCountsOf(ps: seq<Project>): StatusCounts {
    StatusCounts(CountStatus(ps, Planning), CountStatus(ps, InProgress), CountStatus(ps, Review),
                 CountStatus(ps, Completed), CountStatus(ps, OnHold))
  }

  function Total(c: StatusCounts): nat {
    c.planning + c.inProgress + c.review + c.completed + c.onHold
  }

  function IsPending(p: Proposal): bool {
    p.status == ProposalStatus.Sent || p.status == ProposalStatus.Draft
  }

  function ActiveClients(cs: seq<Client>): nat {
    Count(cs, (c: Client) => c.status == Active)
  }

  function Revenue(cs: seq<Client>): int {
    Sum(cs, (c: Client) => c.totalRevenue)
  }

  /** The aggregates of `dashboardStats`, over any three collections: the
      status counts cover every project once. */
  function StatsOf(ps: seq<Project>, cs: seq<Client>, prs: seq<Proposal>): (r: DashboardStats)
    ensures r.totalProjects == |ps| == Total(r.projectsByStatus)
    ensures r.activeClients <= |cs| && r.pendingProposals <= |prs|
  {
    StatusCountsSum(ps);
    DashboardStats(|ps|, ActiveClients(cs), Count(prs, IsPending), Revenue(cs), StatusCountsOf(ps))
  }

  lemma {:induction false} CountStatusStep(ps: seq<Project>, st: ProjectStatus)
    requires ps != []
    ensures CountStatus(ps, st) == (if ps[0].status == st then 1 else 0) + CountStatus(ps[1..], st)
  {
  }

  /** Every project has exactly one of the five statuses, so the five counts
      add up to the number of projects. */
  lemma {:induction false} StatusCountsSum(ps: seq<Project>)
    ensures Total(StatusCountsOf(ps)) == |ps|
  {
    if ps != [] {
      StatusCountsSum(ps[1..]);
      CountStatusStep(ps, Planning);
      CountStatusStep(ps, InProgress);
      CountStatusStep(ps, Review);
      CountStatusStep(ps, Completed);
      CountStatusStep(ps, OnHold);
    }
  }

  /** `dashboardStats` as the seed defines it. */
  const Stats: DashboardStats := StatsOf(Projects, Clients, Proposals)

  lemma SeedProjectStatuses()
    ensures Map(Projects, (p: Project) => p.status) == [InProgress, Planning, Completed, Review, InProgress, OnHold]
  {
  }

  lemma SeedClientFields()
    ensures Map(Clients, (c: Client) => c.status) == [Active, Active, Active, Inactive, Active]
    ensures Map(Clients, (c: Client) => c.totalRevenue) == [245000, 180000, 75000, 45000, 320000]
  {
  }

  lemma SeedProposalStatuses()
    ensures Map(Proposals, (p: Proposal) => p.status)
            == [ProposalStatus.Accepted, ProposalStatus.Accepted, ProposalStatus.Sent, ProposalStatus.Draft, ProposalStatus.Rejected]
  {
  }

  const SeedStatuses: seq<ProjectStatus> := [InProgress, Planning, Completed, Review, InProgress, OnHold]

  lemma StatusListCounts()
    ensures Count(SeedStatuses, (s: ProjectStatus) => s == Planning) == 1
    ensures Count(SeedStatuses, (s: ProjectStatus) => s == InProgress) == 2
    ensures Count(SeedStatuses, (s: ProjectStatus) => s == Review) == 1
    ensures Count(SeedStatuses, (s: ProjectStatus) => s == Completed) == 1
    ensures Count(SeedStatuses, (s: ProjectStatus) => s == OnHold) == 1
  {
  }

  lemma SeedStatusCount(st: ProjectStatus)
    ensures CountStatus(Projects, st) == Count(SeedStatuses, (s: ProjectStatus) => s == st)
  {
    SeedProjectStatuses();
    CountThrough(Projects, (p: Project) => p.status == st, (p: Project) => p.status, (s: ProjectStatus) => s == st);
  }

  lemma SeedStatusCounts()
    ensures StatusCountsOf(Projects) == StatusCounts(1, 2, 1, 1, 1)
  {
    StatusListCounts();
    SeedStatusCount(Planning);
    SeedStatusCount(InProgress);
    SeedStatusCount(Review);
    SeedStatusCount(Completed);
    SeedStatusCount(OnHold);
  }

  lemma ClientListFigures()
    ensures Count([Active, Active, Active, Inactive, Active], (s: ClientStatus) => s == Active) == 4
    ensures Sum([245000, 180000, 75000, 45000, 320000], (x: int) => x) == 865000
  {
  }

  lemma SeedClientFigures()
    ensures ActiveClients(Clients) == 4 && Revenue(Clients) == 865000
  {
    SeedClientFields();
    ClientListFigures();
    CountThrough(Clients, (c: Client) => c.status == Active, (c: Client) => c.status, (s: ClientStatus) => s == Active);
    SumThrough(Clients, (c: Client) => c.totalRevenue);
  }

  lemma ProposalListPending()
    ensures Count([ProposalStatus.Accepted, ProposalStatus.Accepted, ProposalStatus.Sent, ProposalStatus.Draft, ProposalStatus.Rejected],
                  (s: ProposalStatus) => s == ProposalStatus.Sent || s == ProposalStatus.Draft) == 2
  {
  }

  lemma SeedPending()
    ensures Count(Proposals, IsPending) == 2
  {
    SeedProposalStatuses();
    ProposalListPending();
    CountThrough(Proposals, IsPending, (p: Proposal) => p.status,
                 (s: ProposalStatus) => s == ProposalStatus.Sent || s == ProposalStatus.Draft);
  }

  /** The dashboard's figures for the seed: six projects, four active clients,
      two pending proposals (one sent, one draft) and 865000 in revenue. */
  lemma SeedStats()
    ensures Stats.totalProjects == 6 && Stats.activeClients == 4
    ensures Stats.pendingProposals == 2 && Stats.totalRevenue == 865000
    ensures Stats.projectsByStatus == StatusCounts(1, 2, 1, 1, 1)
  {
    SeedStatusCounts();
    SeedClientFigures();
    SeedPending();
  }

  // --------------------------------------------------------- seed invariants

  function LineTotal(i: ProposalItem): int {
    i.quantity * i.unitPrice
  }

  function ItemTotal(i: ProposalItem): int {
    i.total
  }

  function ShowcaseLine(i: ShowcaseItem): int {
    i.quantity * i.unitPrice
  }

  /** Every seeded proposal line totals quantity times unit price, and the
      proposal amount is the sum of its line totals. */
  lemma SeedProposalTotals()
    ensures forall k :: 0 <= k < |Proposals| ==> Proposals[k].items.Some?
    ensures forall k :: 0 <= k < |Proposals| ==>
              var items := Proposals[k].items.value;
              (forall j :: 0 <= j < |items| ==> items[j].total == LineTotal(items[j]))
              && Proposals[k].amount == Sum(items, ItemTotal)
  {
  }

  /** A showcase's stored total is the sum of its lines, and its final
      amount is the total less the discount. */
  predicate TotalsConsistent(s: Showcase) {
    s.totalAmount == Sum(s.items, ShowcaseLine) && s.finalAmount == s.totalAmount - s.discount.GetOr(0)
  }

  lemma Showcase1Totals() ensures TotalsConsistent(Showcase1) {}
  lemma Showcase2Totals() ensures TotalsConsistent(Showcase2) {}
  lemma Showcase3Totals() ensures TotalsConsistent(Showcase3) {}

  /** Every seeded showcase stores the sum of its lines as the total and the
      total less the discount as the final amount. */
  lemma SeedShowcaseTotals()
    ensures Showcases == [Showcase1, Showcase2, Showcase3]
    ensures TotalsConsistent(Showcase1) && TotalsConsistent(Showcase2) && TotalsConsistent(Showcase3)
  {
    Showcase1Totals();
    Showcase2Totals();
    Showcase3Totals();
  }

  predicate Distinct(xs: seq<string>) {
    forall i, j :: 0 <= i < j < |xs| ==> xs[i] != xs[j]
  }

  /** No two records of s share an id. */
  predicate UniqueIds<T>(s: seq<T>, id: T -> string) {
    Distinct(Map(s, id))
  }

  // No two seeded records of one collection share an id.

  lemma SeedClientsIds()
    ensures UniqueIds(Clients, (c: Client) => c.id)
  {
    assert Map(Clients, (c: Client) => c.id) == ["client-1", "client-2", "client-3", "client-4", "client-5"];
    assert Distinct(["client-1", "client-2", "client-3", "client-4", "client-5"]);
  }

  lemma SeedProjectsIds()
    ensures UniqueIds(Projects, (p: Project) => p.id)
  {
    assert Map(Projects, (p: Project) => p.id) == ["proj-1", "proj-2", "proj-3", "proj-4", "proj-5", "proj-6"];
    assert Distinct(["proj-1", "proj-2", "proj-3", "proj-4", "proj-5", "proj-6"]);
  }

  lemma SeedProposalsIds()
    ensures UniqueIds(Proposals, (p: Proposal) => p.id)
  {
    assert Map(Proposals, (p: Proposal) => p.id) == ["prop-1", "prop-2", "prop-3", "prop-4", "prop-5"];
    assert Distinct(["prop-1", "prop-2", "prop-3", "prop-4", "prop-5"]);
  }

  lemma SeedContractsIds()
    ensures UniqueIds(Contracts, (c: Contract) => c.id)
  {
    assert Map(Contracts, (c: Contract) => c.id) == ["cont-1", "cont-2", "cont-3", "cont-4", "cont-5"];
    assert Distinct(["cont-1", "cont-2", "cont-3", "cont-4", "cont-5"]);
  }

  lemma SeedClientNotesIds()
    ensures UniqueIds(ClientNotes, (n: ClientNote) => n.id)
  {
    assert Map(ClientNotes, (n: ClientNote) => n.id) == ["note-1", "note-2", "note-3", "note-4", "note-5", "note-6", "note-7"];
    assert Distinct(["note-1", "note-2", "note-3", "note-4", "note-5", "note-6", "note-7"]);
  }

  lemma SeedShowcasesIds()
    ensures UniqueIds(Showcases, (s: Showcase) => s.id)
  {
    assert Map(Showcases, (s: Showcase) => s.id) == ["showcase-1", "showcase-2", "showcase-3"];
    assert Distinct(["showcase-1", "showcase-2", "showcase-3"]);
  }

  lemma {:induction false} Numbers2024(code: string, k: nat)
    requires 1 <= k <= 9
    ensures DocumentNumber(code, 2024, k) == code + "-2024-00" + [DigitChar(k)]
  {
    assert NatText(2) == "2";
    assert NatText(20) == "20";
    assert NatText(202) == "202";
    assert NatText(2024) == "2024";
    assert NatText(k) == [DigitChar(k)];
    assert Repeat('0', 2) == "00";
    assert SequenceText(k) == "00" + [DigitChar(k)];
  }

  lemma SeedNumberLists()
    ensures Map(Proposals, (p: Proposal) => p.number)
            == ["TEK-2024-001", "TEK-2024-002", "TEK-2024-003", "TEK-2024-004", "TEK-2024-005"]
    ensures Map(Contracts, (c: Contract) => c.number)
            == ["SÖZ-2024-001", "SÖZ-2024-002", "SÖZ-2024-003", "SÖZ-2024-004", "SÖZ-2024-005"]
  {
  }

  lemma NumberList(code: string, ns: seq<string>)
    requires |ns| == 5 && forall k :: 0 <= k < 5 ==> ns[k] == code + "-2024-00" + [DigitChar(k + 1)]
    ensures forall k :: 0 <= k < |ns| ==> ns[k] == DocumentNumber(code, 2024, k + 1)
  {
    forall k | 0 <= k < |ns| ensures ns[k] == DocumentNumber(code, 2024, k + 1) {
      Numbers2024(code, k + 1);
    }
  }

  /** The seeded proposals are numbered TEK-2024-001 to TEK-2024-005 in order. */
  lemma SeedProposalNumbers()
    ensures forall k :: 0 <= k < |Proposals| ==> Proposals[k].number == DocumentNumber("TEK", 2024, k + 1)
  {
    SeedNumberLists();
    var ns := Map(Proposals, (p: Proposal) => p.number);
    assert forall k :: 0 <= k < 5 ==> ns[k] == "TEK-2024-00" + [DigitChar(k + 1)];
    NumberList("TEK", ns);
  }

  /** The seeded contracts are numbered SÖZ-2024-001 to SÖZ-2024-005, with an
      Ö where the route handlers write `SOZ`. */
  lemma SeedContractNumbers()
    ensures forall k :: 0 <= k < |Contracts| ==> Contracts[k].number == DocumentNumber("SÖZ", 2024, k + 1)
  {
    SeedNumberLists();
    var ns := Map(Contracts, (c: Contract) => c.number);
    assert forall k :: 0 <= k < 5 ==> ns[k] == "SÖZ-2024-00" + [DigitChar(k + 1)];
    NumberList("SÖZ", ns);
  }
}
