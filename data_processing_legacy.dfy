/** The older revision of the processors (data_processing.py at the top of
    the repository). Its RegionProcessor and calcSum are the same code as the
    later revision's and are modelled once, by RegionProcessor and
    SumCalculator; what differs is kept here: the flux calculator stores its
    step length and takes its mode as a string, and the balance calculator
    reads as many maps as fluxes and drops the last flux. */
module LegacyProcessing {
  import opened PyArrays
  import opened Containers
  import opened DataLoading
  import opened RegionProcessor
  import opened Tools
  import SumCalculator
  import ConvCalculator
  import BalanceCalculator

  /** `getId` of this revision shifts the longitude indices by one and the
      latitude indices by nothing, as the later revision does. */
  lemma LegacyIdOffset(region: Region, grid: Grid)
    requires |grid.lon| > 0 && |grid.lat| > 0
    ensures var id := GetId(region, grid).value;
      && id.left == ClosestId(region.Left(), grid.lon).value + 1
      && id.right == ClosestId(region.Right(), grid.lon).value + 1
      && id.down == ClosestId(region.Down(), grid.lat).value
      && id.up == ClosestId(region.Up(), grid.lat).value
  {
  }

  /** The step length every `ConvCalculator` of this revision gets unless told
      otherwise: three hours. */
  const DEFAULT_SECONDS: int := 3 * 3600

  /** `ConvCalculator(regdata, seconds)`. */
  datatype ConvCalc = ConvCalc(regdata: RegionData, seconds: int) {

    /** The constructor; `seconds` defaults to three hours. */
    static function New(regdata: RegionData, seconds: int := DEFAULT_SECONDS): (c: ConvCalc)
      ensures c.regdata == regdata && c.seconds == seconds
    {
      ConvCalc(regdata, seconds)
    }

    /** `calcConv(convdata, mode)`: the flux values, then income and outcome
        over the stored step length; "diff" gives the pair, "total" their
        difference, and any other string raises ValueError. */
    function CalcConv(convdata: ConvDayData, mode: string): (r: Result<ConvCalculator.ConvResult>)
      ensures mode == "diff" ==> r == ConvCalculator.CalcConv(convdata, regdata, seconds, ConvCalculator.Sep)
      ensures mode == "total" ==> r == ConvCalculator.CalcConv(convdata, regdata, seconds, ConvCalculator.Total)
      ensures mode != "diff" && mode != "total" ==> r == Err(ValueError)
    {
      var values :- ConvCalculator.GetConvValue(convdata.conc, convdata.flow, regdata.cell);
      var income := ConvCalculator.OverStep(ConvCalculator.CalcIncome(values), seconds);
      var outcome := ConvCalculator.OverStep(ConvCalculator.CalcOutcome(values), seconds);
      if mode == "diff" then Ok(ConvCalculator.Separated(income, outcome))
      else if mode == "total" then Ok(ConvCalculator.Net(income - outcome))
      else Err(ValueError)
    }
  }

  /** With the default step and mode, the flux of one step is the net inflow
      through the boundary over three hours. */
  lemma DefaultConvIsNetInflow(regdata: RegionData, convdata: ConvDayData)
    requires ConvCalc.New(regdata).CalcConv(convdata, "total").Ok?
    ensures var v := ConvCalculator.GetConvValue(convdata.conc, convdata.flow, regdata.cell).value;
      && ConvCalc.New(regdata).CalcConv(convdata, "total").value.Net?
      && ConvCalc.New(regdata).CalcConv(convdata, "total").value.value
         == ConvCalculator.OverStep(Sum(v.left) + Sum(v.down) - Sum(v.right) - Sum(v.up), 10800)
  {
    ConvCalculator.ConvTotalIsNetInflow(convdata, regdata, DEFAULT_SECONDS);
  }

  /** `np.delete(a, -1)`: the array without its last entry; an empty array
      has no index -1 and raises IndexError. */
  function DeleteLast(a: seq<real>): (r: Result<seq<real>>)
    ensures r.Ok? <==> |a| > 0
    ensures r.Err? ==> r.error == IndexError
    ensures r.Ok? ==> r.value + [a[|a| - 1]] == a
  {
    if |a| == 0 then Err(IndexError) else Ok(a[..|a| - 1])
  }

  /** `r` is what differencing the masses at time ids `s .. s + n` gives:
      the `n` changes from each map to the next exactly when `n` is not
      negative and every mass is defined. */
  ghost predicate DiffsFilled(r: Result<seq<real>>, s: int, n: int, mass: int -> Result<real>)
  {
    && (r.Ok? <==> n >= 0 && forall t :: s <= t <= s + n ==> mass(t).Ok?)
    && (r.Ok? ==> |r.value| == n && forall k :: 0 <= k < n ==> r.value[k] == mass(s + k + 1).value - mass(s + k).value)
  }

  /** The differences of the masses at `s .. s + n`, once they are read. */
  method DiffsOfSums(ghost s: int, ghost n: int, ghost mass: int -> Result<real>, sums: Result<seq<real>>)
    returns (r: Result<seq<real>>)
    requires FilledFrom(sums, s, n + 1, mass)
    ensures DiffsFilled(r, s, n, mass)
  {
    var sumSeries :- sums;
    r := BalanceCalculator.CalcSumsDiffSeries(sumSeries);
    if r.Ok? {
      forall k | 0 <= k < n
        ensures r.value[k] == mass(s + k + 1).value - mass(s + k).value
      {
        assert sumSeries[k] == mass(s + k).value && sumSeries[k + 1] == mass(s + k + 1).value;
      }
    }
  }

  /** Every mass at `s .. s + n` and every flux at `s .. s + n` is defined:
      the trimmed series reads the flux at `s + n` before dropping it. */
  ghost predicate TrimmedDefined(s: int, n: int, mass: int -> Result<real>, conv: int -> Result<real>)
  {
    BalanceCalculator.SeriesDefined(s, n, mass, conv) && conv(s + n).Ok?
  }

  /** `r` is the trimmed balance of the `n` steps from time id `s`: a series
      exactly when every mass and flux it reads is defined, and then the
      change of mass less the flux at every step. */
  ghost predicate TrimmedOutcome(r: Result<seq<real>>, s: int, n: int,
                                 mass: int -> Result<real>, conv: int -> Result<real>)
  {
    match r
    case Ok(b) => TrimmedDefined(s, n, mass, conv) && BalanceCalculator.IsBalanceSeries(s, n, mass, conv, b)
    case Err(_) => !TrimmedDefined(s, n, mass, conv)
  }

  /** The balance once the differences and the `n + 1` fluxes are known: the
      last flux is dropped and the rest is subtracted step by step. */
  method TrimmedBalance(ghost s: int, ghost n: int, ghost mass: int -> Result<real>, ghost conv: int -> Result<real>,
                        diffs: Result<seq<real>>, convs: Result<seq<real>>) returns (r: Result<seq<real>>)
    requires DiffsFilled(diffs, s, n, mass) && FilledFrom(convs, s, n + 1, conv)
    ensures TrimmedOutcome(r, s, n, mass, conv)
  {
    var diffSums :- diffs;
    var convSeries :- convs;
    assert |convSeries| == n + 1;
    var trimmed := DeleteLast(convSeries).value;
    r := BalanceCalculator.CalcBalanceSeries(diffSums, trimmed);
    forall k | 0 <= k < n
      ensures r.value[k] == mass(s + k + 1).value - mass(s + k).value - conv(s + k).value
    {
      assert trimmed[k] == convSeries[k] == conv(s + k).value;
    }
  }

  /** The series of a calculator whose mass and flux at each time id are
      `mass` and `conv`: the `n + 1` masses and their differences, the
      `n + 1` fluxes, and the trimmed balance. */
  method BalanceOfSteps(s: int, n: int, mass: int -> Result<real>, conv: int -> Result<real>)
    returns (r: Result<seq<real>>)
    ensures TrimmedOutcome(r, s, n, mass, conv)
  {
    var sums := FillFrom(s, n + 1, mass);
    var diffSums := DiffsOfSums(s, n, mass, sums);
    var convs := FillFrom(s, n + 1, conv);
    r := TrimmedBalance(s, n, mass, conv, diffSums, convs);
  }

  /** `BalanceCalculator(regdata, data_loader, (start_day, end_day))`. */
  datatype LegacyBalance = LegacyBalance(regdata: RegionData, loader: DataLoader, startDay: int, endDay: int) {

    /** The mass at each time id: `calcSum` of this revision is the later
        revision's integration, read from the same loader. */
    function Mass(): int -> Result<real>
    {
      BalanceCalculator.MassAt(BalanceCalculator.BalanceData(regdata, loader))
    }

    /** The flux at each time id: what `calcConv(convdata, "total")` of a
        calculator with the default step gives (ConvIsDefaultTotal). */
    function Conv(): int -> Result<real>
    {
      t => (var convdata :- GetConvData(loader, t, regdata.id);
            var c :- ConvCalculator.CalcConv(convdata, regdata, DEFAULT_SECONDS, ConvCalculator.Total);
            Ok(c.value))
    }

    /** `calcSumSeries`: the masses at `start_day .. end_day`. */
    method CalcSumSeries() returns (r: Result<seq<real>>)
      ensures FilledFrom(r, startDay, endDay - startDay + 1, Mass())
    {
      r := FillFrom(startDay, endDay - startDay + 1, Mass());
    }

    /** `calcSumsDiffSeries`: one change of mass per step between two maps
        of the range. */
    method CalcSumsDiffSeries() returns (r: Result<seq<real>>)
      ensures DiffsFilled(r, startDay, endDay - startDay, Mass())
    {
      var sums := CalcSumSeries();
      r := DiffsOfSums(startDay, endDay - startDay, Mass(), sums);
    }

    /** `calcConvSeries`: the fluxes at `start_day .. end_day`. */
    method CalcConvSeries() returns (r: Result<seq<real>>)
      ensures FilledFrom(r, startDay, endDay - startDay + 1, Conv())
    {
      r := FillFrom(startDay, endDay - startDay + 1, Conv());
    }

    /** `getBalanceSeries`: the differences, the fluxes without the last one,
        and their difference, of length `end_day - start_day`. */
    method GetBalanceSeries() returns (r: Result<seq<real>>)
      ensures r.Ok? <==> TrimmedDefined(startDay, endDay - startDay, Mass(), Conv())
      ensures r.Ok? ==> BalanceCalculator.IsBalanceSeries(startDay, endDay - startDay, Mass(), Conv(), r.value)
    {
      r := BalanceOfSteps(startDay, endDay - startDay, Mass(), Conv());
    }
  }

  /** `calcConvSeries` reads each flux through `ConvCalculator(regdata)`
      and `calcConv(convdata, "total")`, keeping the flux value. */
  lemma ConvIsDefaultTotal(bc: LegacyBalance, t: int)
    ensures bc.Conv()(t) == (var convdata :- GetConvData(bc.loader, t, bc.regdata.id);
                             var c :- ConvCalc.New(bc.regdata).CalcConv(convdata, "total");
                             Ok(c.value))
  {
  }

  /** When the loader's step length is three hours, the flux of this revision
      at every time id is the later revision's. */
  lemma LegacyConvMatchesSrc(bc: LegacyBalance, t: int)
    requires bc.loader.dateData.seconds == DEFAULT_SECONDS
    ensures bc.Conv()(t) == BalanceCalculator.ConvAt(BalanceCalculator.BalanceData(bc.regdata, bc.loader))(t)
  {
  }

  /** The series of this revision over `start_day .. end_day` is the later
      revision's balance series of the range ending one step earlier: the
      later revision reads one more map, this one one more flux and drops it. */
  lemma LegacyBalanceMatchesSrc(bc: LegacyBalance, b: seq<real>)
    requires bc.loader.dateData.seconds == DEFAULT_SECONDS
    requires bc.loader.dateData.startId == bc.startDay && bc.loader.dateData.endId == bc.endDay - 1
    requires BalanceCalculator.SeriesDefined(bc.startDay, bc.endDay - bc.startDay, bc.Mass(), bc.Conv())
    requires BalanceCalculator.IsBalanceSeries(bc.startDay, bc.endDay - bc.startDay, bc.Mass(), bc.Conv(), b)
    ensures var bd := BalanceCalculator.BalanceData(bc.regdata, bc.loader);
      && BalanceCalculator.BalanceDefined(bd)
      && BalanceCalculator.IsBalanceSeries(bd.data.dateData.startId, bd.data.dateData.Timesize(),
                                           BalanceCalculator.MassAt(bd), BalanceCalculator.ConvAt(bd), b)
  {
    var bd := BalanceCalculator.BalanceData(bc.regdata, bc.loader);
    forall t | bc.startDay <= t < bc.endDay
      ensures BalanceCalculator.ConvAt(bd)(t) == bc.Conv()(t)
    {
      LegacyConvMatchesSrc(bc, t);
    }
    SameSteps(bc.startDay, bc.endDay - bc.startDay, bc.Mass(), bc.Conv(),
              BalanceCalculator.MassAt(bd), BalanceCalculator.ConvAt(bd), b);
  }

  /** A balance series stays one when the masses and fluxes it is built from
      are replaced by equal ones. */
  lemma SameSteps(s: int, n: int, mass: int -> Result<real>, conv: int -> Result<real>,
                  mass': int -> Result<real>, conv': int -> Result<real>, b: seq<real>)
    requires BalanceCalculator.SeriesDefined(s, n, mass, conv)
    requires BalanceCalculator.IsBalanceSeries(s, n, mass, conv, b)
    requires forall t :: s <= t <= s + n ==> mass'(t) == mass(t)
    requires forall t :: s <= t < s + n ==> conv'(t) == conv(t)
    ensures BalanceCalculator.SeriesDefined(s, n, mass', conv')
    ensures BalanceCalculator.IsBalanceSeries(s, n, mass', conv', b)
  {
    forall k | 0 <= k < n
      ensures b[k] == mass'(s + k + 1).value - mass'(s + k).value - conv'(s + k).value
    {
      assert mass'(s + k + 1) == mass(s + k + 1) && mass'(s + k) == mass(s + k) && conv'(s + k) == conv(s + k);
    }
  }
}
