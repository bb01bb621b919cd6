/** The reports page: the competition chart built from the backend's
    statistics, the success-rate card, the list of high-potential products,
    and the empty state shown when there are no statistics. */
module Reports {
  import opened Wrappers
  import opened Types

  datatype CompetitionCount = CompetitionCount(level: CompetitionLevel, count: int)
  datatype ProductSummary = ProductSummary(id: string, name: string, sku: string)

  datatype ReportStats = ReportStats(
    totalProducts: int, opportunities: int,
    competitionDistribution: seq<CompetitionCount>,
    highPotentialProducts: seq<ProductSummary>)

  datatype ChartSlice = ChartSlice(name: string, value: int, color: string)

  /** `COLORS` at a competition level's key. */
  function LevelColor(level: CompetitionLevel): string
  {
    match level
    case Low => "#3b82f6"
    case Medium => "#f59e0b"
    case High => "#ef4444"
  }

  /** The slice name: 'Baixa' for low, 'Média' for medium, 'Alta' for any
      other level. */
  function LevelLabel(level: CompetitionLevel): string
  {
    if level == Low then "Baixa" else if level == Medium then "Média" else "Alta"
  }

  /** `competitionData`: one slice per entry of the distribution, in the
      same order, carrying its count, its level's name and its level's
      color. */
  function CompetitionData(dist: seq<CompetitionCount>): (slices: seq<ChartSlice>)
    ensures |slices| == |dist|
    ensures forall i :: 0 <= i < |dist| ==>
              && slices[i].value == dist[i].count
              && slices[i].color == LevelColor(dist[i].level)
              && slices[i].name == LevelLabel(dist[i].level)
  {
    seq(|dist|, i requires 0 <= i < |dist| =>
      ChartSlice(LevelLabel(dist[i].level), dist[i].count, LevelColor(dist[i].level)))
  }

  /** Each slice's name and color tell its level apart: different levels
      never share a name or a color. */
  lemma SlicesIdentifyLevels(a: CompetitionLevel, b: CompetitionLevel)
    ensures LevelLabel(a) == LevelLabel(b) <==> a == b
    ensures LevelColor(a) == LevelColor(b) <==> a == b
  {
    if a != b {
      assert LevelLabel(a)[0] != LevelLabel(b)[0];
      assert LevelColor(a)[1] != LevelColor(b)[1] || LevelColor(a)[2] != LevelColor(b)[2];
    }
  }

  function SumCounts(dist: seq<CompetitionCount>): int
  {
    if dist == [] then 0 else dist[0].count + SumCounts(dist[1..])
  }

  function SumValues(slices: seq<ChartSlice>): int
  {
    if slices == [] then 0 else slices[0].value + SumValues(slices[1..])
  }

  /** The chart shows the whole distribution: its values add up to the
      total count. */
  lemma {:induction false} ChartKeepsTotal(dist: seq<CompetitionCount>)
    ensures SumValues(CompetitionData(dist)) == SumCounts(dist)
  {
    if dist != [] {
      ChartKeepsTotal(dist[1..]);
      assert CompetitionData(dist)[1..] == CompetitionData(dist[1..]);
    }
  }

  /** The success-rate card: the literal 0 when there are no products,
      otherwise the share of opportunities times 100. */
  datatype Rate = ZeroLiteral | Ratio(percent: real)

  function SuccessRate(stats: ReportStats): (r: Rate)
    ensures r == ZeroLiteral <==> stats.totalProducts <= 0
    ensures r.Ratio? ==> r.percent * stats.totalProducts as real == stats.opportunities as real * 100.0
  {
    if stats.totalProducts > 0
    then Ratio(stats.opportunities as real / stats.totalProducts as real * 100.0)
    else ZeroLiteral
  }

  /** `slice(0, 10)` of the high-potential products. */
  function TopProducts(products: seq<ProductSummary>): (top: seq<ProductSummary>)
    ensures |top| == if |products| < 10 then |products| else 10
    ensures top <= products
  {
    if |products| <= 10 then products else products[..10]
  }

  /** The high-potential card: a message when the list is empty, otherwise
      the first ten products in order. */
  datatype HighPotential = NoneFound | Listed(products: seq<ProductSummary>)

  function HighPotentialCard(products: seq<ProductSummary>): (card: HighPotential)
    ensures card == NoneFound <==> products == []
    ensures card.Listed? ==> 1 <= |card.products| <= 10 && card.products <= products
    ensures card.Listed? ==> |card.products| == if |products| < 10 then |products| else 10
  {
    if |products| == 0 then NoneFound else Listed(TopProducts(products))
  }

  /** What the loaded page shows. */
  datatype ReportView = NoData | Report(competition: seq<ChartSlice>, successRate: Rate, highPotential: HighPotential)

  /** Without statistics the page shows its empty state; with them, the
      chart, the success rate and the high-potential card built from them. */
  function View(stats: Option<ReportStats>): (v: ReportView)
    ensures v == NoData <==> stats == None
    ensures v.Report? ==>
              && |v.competition| == |stats.value.competitionDistribution|
              && SumValues(v.competition) == SumCounts(stats.value.competitionDistribution)
              && (v.successRate == ZeroLiteral <==> stats.value.totalProducts <= 0)
              && (v.highPotential == NoneFound <==> stats.value.highPotentialProducts == [])
    ensures v.Report? ==>
              && v.competition == CompetitionData(stats.value.competitionDistribution)
              && v.successRate == SuccessRate(stats.value)
              && v.highPotential == HighPotentialCard(stats.value.highPotentialProducts)
  {
    match stats
    case None => NoData
    case Some(s) =>
      ChartKeepsTotal(s.competitionDistribution);
      Report(CompetitionData(s.competitionDistribution), SuccessRate(s),
             HighPotentialCard(s.highPotentialProducts))
  }
}
