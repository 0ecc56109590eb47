/** The progress indicator: the animated dots, the status line and the progress bar. */
module LoadingScreen {
  import opened Types

  /** `k` dots. */
  function Dots(k: nat): (d: string)
    ensures |d| == k && forall i :: 0 <= i < k ==> d[i] == '.'
  {
    seq(k, _ => '.')
  }

  /** A value the `dots` cell can hold: at most three dots and nothing else. */
  predicate IsDots(d: string) {
    |d| <= 3 && forall i :: 0 <= i < |d| ==> d[i] == '.'
  }

  /** One timer tick of `setDots`: a dot is appended below length 3, otherwise the text restarts. */
  function NextDots(prev: string): (next: string)
    ensures IsDots(prev) ==> IsDots(next) && next == Dots((|prev| + 1) % 4)
  {
    if |prev| >= 3 then "" else prev + "."
  }

  /** The `dots` cell after `n` ticks from `d`. */
  function Ticks(d: string, n: nat): (r: string)
    ensures IsDots(d) ==> IsDots(r) && |r| == (|d| + n) % 4
    decreases n
  {
    if n == 0 then d else Ticks(NextDots(d), n - 1)
  }

  /** From a valid value the ticker counts dots modulo 4. */
  lemma {:induction false} TicksCount(d: string, n: nat)
    requires IsDots(d)
    ensures Ticks(d, n) == Dots((|d| + n) % 4)
    decreases n
  {
    if n == 0 {
      assert d == Dots(|d|);
    } else {
      var next := NextDots(d);
      TicksCount(next, n - 1);
      assert (|next| + (n - 1)) % 4 == (|d| + n) % 4;
    }
  }

  /** Starting from the initial '', the cell always holds 0 to 3 dots. */
  lemma TicksFromEmpty(n: nat)
    ensures Ticks("", n) == Dots(n % 4)
    ensures IsDots(Ticks("", n))
  {
    TicksCount("", n);
  }

  /** The ticker has period 4 on every value it can hold. */
  lemma TicksPeriod(d: string, n: nat)
    requires IsDots(d)
    ensures Ticks(d, n + 4) == Ticks(d, n)
    ensures Ticks(d, 4) == d
  {
    TicksCount(d, n + 4);
    TicksCount(d, n);
    TicksCount(d, 4);
    assert d == Dots(|d|);
  }

  /** The default status line. */
  const Processing: string := "Processing"

  /** getStatusText: one phrase per pipeline stage, "Processing" otherwise. */
  function StatusText(s: AppState): (t: string)
    ensures t == Processing <==> s !in {AnalyzingImage, FetchingInfo, GeneratingAudio}
  {
    match s
    case AnalyzingImage => "Analyzing architecture"
    case FetchingInfo => "Digging through history"
    case GeneratingAudio => "Synthesizing guide voice"
    case _ => Processing
  }

  /** The three stage phrases are different from each other. */
  lemma StatusTextDistinct(s1: AppState, s2: AppState)
    requires s1 in {AnalyzingImage, FetchingInfo, GeneratingAudio}
    requires StatusText(s1) == StatusText(s2)
    ensures s1 == s2
  {
  }

  /** The Tailwind width class of the progress bar. */
  function ProgressClass(s: AppState): (cls: string)
    ensures cls in {"w-0", "w-1/3", "w-2/3", "w-full"}
    ensures cls != "w-0" <==> s in {AnalyzingImage, FetchingInfo, GeneratingAudio}
    ensures cls == "w-full" <==> s == GeneratingAudio
  {
    if s == AnalyzingImage then "w-1/3"
    else if s == FetchingInfo then "w-2/3"
    else if s == GeneratingAudio then "w-full"
    else "w-0"
  }

  /** The fraction of the bar a width class fills. */
  function WidthOf(cls: string): real {
    if cls == "w-1/3" then 1.0 / 3.0
    else if cls == "w-2/3" then 2.0 / 3.0
    else if cls == "w-full" then 1.0
    else 0.0
  }

  /** The bar is empty outside the three stages and full at the last one. */
  lemma ProgressBounds(s: AppState)
    ensures 0.0 <= WidthOf(ProgressClass(s)) <= 1.0
    ensures WidthOf(ProgressClass(s)) > 0.0 <==> s in {AnalyzingImage, FetchingInfo, GeneratingAudio}
    ensures WidthOf(ProgressClass(s)) == 1.0 <==> s == GeneratingAudio
  {
  }

  /** The three stages in the order a run passes through them. */
  const StageOrder: seq<AppState> := [AnalyzingImage, FetchingInfo, GeneratingAudio]

  /** The bar grows strictly along the pipeline order. */
  lemma ProgressIncreases(i: nat, j: nat)
    requires i < j < |StageOrder|
    ensures WidthOf(ProgressClass(StageOrder[i])) < WidthOf(ProgressClass(StageOrder[j]))
  {
  }
}
