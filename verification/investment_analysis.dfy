/**
 * The investment suggestion: a fixed table from risk preference and budget
 * level to products, a description, a risk level and an expected return.
 */
module InvestmentAnalysis {

  datatype RiskPreference = Conservative | Moderate | Aggressive

  datatype BudgetLevel = Low | Medium | High

  /** The risk levels the table uses, from lowest to highest. */
  datatype RiskLevel = Rendah | RendahSedang | Sedang | SedangTinggi | Tinggi | SangatTinggi

  function RiskLabel(l: RiskLevel): string {
    match l
    case Rendah => "Rendah"
    case RendahSedang => "Rendah-Sedang"
    case Sedang => "Sedang"
    case SedangTinggi => "Sedang-Tinggi"
    case Tinggi => "Tinggi"
    case SangatTinggi => "Sangat Tinggi"
  }

  function Rank(l: RiskLevel): nat {
    match l
    case Rendah => 0
    case RendahSedang => 1
    case Sedang => 2
    case SedangTinggi => 3
    case Tinggi => 4
    case SangatTinggi => 5
  }

  function PreferenceRank(p: RiskPreference): nat {
    match p
    case Conservative => 0
    case Moderate => 1
    case Aggressive => 2
  }

  function BudgetRank(b: BudgetLevel): nat {
    match b
    case Low => 0
    case Medium => 1
    case High => 2
  }

  datatype Recommendation = Recommendation(
    products: seq<string>,
    description: string,
    riskLevel: RiskLevel,
    expectedReturn: string)

  /** The table lookup, assembled column by column; every pair of choices has an entry. */
  function Recommend(p: RiskPreference, b: BudgetLevel): (r: Recommendation)
    ensures |r.products| >= 1
  {
    Recommendation(Products(p, b), Description(p, b), LevelColumn(p, b), ExpectedReturn(p, b))
  }

  /** The products column: every entry names at least one product. */
  function Products(p: RiskPreference, b: BudgetLevel): (ps: seq<string>)
    ensures |ps| >= 1
  {
    match (p, b)
    case (Conservative, Low) => ["Tabungan Berjangka", "Deposito"]
    case (Conservative, Medium) => ["Deposito", "Obligasi Pemerintah", "Reksa Dana Pendapatan Tetap"]
    case (Conservative, High) => ["Obligasi Pemerintah", "Reksa Dana Pendapatan Tetap"]
    case (Moderate, Low) => ["Reksa Dana Pasar Uang"]
    case (Moderate, Medium) => ["Reksa Dana Campuran"]
    case (Moderate, High) => ["Reksa Dana Campuran", "Saham Bluechip"]
    case (Aggressive, Low) => ["Reksa Dana Saham"]
    case (Aggressive, Medium) => ["Saham Individu"]
    case (Aggressive, High) => ["Saham", "Cryptocurrency", "Private Equity"]
  }

  function Description(p: RiskPreference, b: BudgetLevel): string {
    match (p, b)
    case (Conservative, Low) => "Investasi dengan risiko rendah dan return yang stabil"
    case (Conservative, Medium) =>
      "Portfolio campuran dengan fokus pada instrumen pendapatan tetap (80%) dan pasar uang (20%)"
    case (Conservative, High) => "Fokus pada instrumen pendapatan tetap dengan kualitas tinggi"
    case (Moderate, Low) => "Investasi pada instrumen pasar uang dengan likuiditas tinggi"
    case (Moderate, Medium) => "Portfolio terdiversifikasi (60% saham, 20% pendapatan tetap, 20% pasar uang)"
    case (Moderate, High) => "Kombinasi reksadana campuran dan saham perusahaan besar"
    case (Aggressive, Low) => "Fokus pada pertumbuhan melalui reksa dana saham"
    case (Aggressive, Medium) => "Portfolio mayoritas saham (90%) dengan sedikit pendapatan tetap (10%)"
    case (Aggressive, High) => "Portfolio agresif dengan target return tinggi"
  }

  function LevelColumn(p: RiskPreference, b: BudgetLevel): RiskLevel {
    match (p, b)
    case (Conservative, Low) => Rendah
    case (Conservative, Medium) => RendahSedang
    case (Conservative, High) => Sedang
    case (Moderate, Low) => RendahSedang
    case (Moderate, Medium) => Sedang
    case (Moderate, High) => SedangTinggi
    case (Aggressive, Low) => Tinggi
    case (Aggressive, Medium) => Tinggi
    case (Aggressive, High) => SangatTinggi
  }

  function ExpectedReturn(p: RiskPreference, b: BudgetLevel): string {
    match (p, b)
    case (Conservative, Low) => "4-6% per tahun"
    case (Conservative, Medium) => "6-8% per tahun"
    case (Conservative, High) => "7-9% per tahun"
    case (Moderate, Low) => "5-7% per tahun"
    case (Moderate, Medium) => "8-12% per tahun"
    case (Moderate, High) => "10-15% per tahun"
    case (Aggressive, Low) => "12-18% per tahun"
    case (Aggressive, Medium) => "15-20% per tahun"
    case (Aggressive, High) => ">20% per tahun"
  }

  /** The three entries with fixed, well-known contents. */
  lemma KnownEntries()
    ensures RiskLabel(Recommend(Conservative, Low).riskLevel) == "Rendah"
    ensures Recommend(Conservative, Low).expectedReturn == "4-6% per tahun"
    ensures RiskLabel(Recommend(Aggressive, High).riskLevel) == "Sangat Tinggi"
    ensures Recommend(Moderate, Medium).products == ["Reksa Dana Campuran"]
  {
  }

  lemma MonotoneInPreference(p: RiskPreference, q: RiskPreference, b: BudgetLevel)
    requires PreferenceRank(p) <= PreferenceRank(q)
    ensures Rank(LevelColumn(p, b)) <= Rank(LevelColumn(q, b))
  {
  }

  lemma MonotoneInBudget(p: RiskPreference, b: BudgetLevel, c: BudgetLevel)
    requires BudgetRank(b) <= BudgetRank(c)
    ensures Rank(LevelColumn(p, b)) <= Rank(LevelColumn(p, c))
  {
  }

  /**
   * Asking for more risk, or bringing a larger budget, never yields a lower
   * risk level.
   */
  lemma RiskLevelMonotone(p: RiskPreference, q: RiskPreference, b: BudgetLevel, c: BudgetLevel)
    requires PreferenceRank(p) <= PreferenceRank(q) && BudgetRank(b) <= BudgetRank(c)
    ensures Rank(LevelColumn(p, b)) <= Rank(LevelColumn(q, c))
  {
    MonotoneInPreference(p, q, b);
    MonotoneInBudget(q, b, c);
  }

  /** Only the most cautious choices get the lowest level, and only the boldest the highest. */
  lemma RiskLevelExtremes(p: RiskPreference, b: BudgetLevel)
    ensures LevelColumn(p, b) == Rendah <==> p == Conservative && b == Low
    ensures LevelColumn(p, b) == SangatTinggi <==> p == Aggressive && b == High
  {
  }
}
