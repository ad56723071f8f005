/**
  The result dictionaries the reporting modules fill in. The keys the
  harness writes are fields; a key that has not been written is `None`.
 */
module Records {
  import opened Wrappers
  import opened Values
  import opened ResultInfo

  /** An item of `raw_extra_results`: what extra_results.yaml held, or an
      entry the eval parser added. */
  datatype ExtraItem = Loaded(v: Value) | Added(e: ResultEntry)

  /** `raw_extra_results`: a list, or some other YAML value (which has no
      extend()). */
  datatype Extra = Items(items: seq<ExtraItem>) | Other(v: Value)

  /** The contents of extra_results.yaml as the record stores them. */
  function ExtraOf(v: Value): (e: Extra)
    ensures v.List? ==> e.Items? && |e.items| == |v.items|
    ensures v.List? ==> forall k :: 0 <= k < |v.items| ==> e.items[k] == Loaded(v.items[k])
    ensures !v.List? ==> e == Other(v)
  {
    match v
    case List(items) => Items(seq(|items|, k requires 0 <= k < |items| => Loaded(items[k])))
    case _ => Other(v)
  }

  datatype ResultRecord = ResultRecord(
    config: Option<Config>,
    resultDir: Option<string>,
    testId: Option<Value>,
    dataType: Option<string>,
    gpu: Option<int>,
    rawExtraResults: Option<Extra>,
    imgsSec: Option<real>,
    batchesSampled: Option<int>)

  /** `result = {}`. */
  const EMPTY_RECORD: ResultRecord := ResultRecord(None, None, None, None, None, None, None, None)

  /** `int(config['gpus'])` when the config has `gpus`, else no `gpu` key. */
  function GpuOf(config: Config): (r: Result<Option<int>>)
    ensures "gpus" !in config ==> r == Success(None)
    ensures "gpus" in config ==> (r.Success? <==> ToInt(config["gpus"]).Success?)
    ensures "gpus" in config && r.Success? ==> r.value == Some(ToInt(config["gpus"]).value)
  {
    if "gpus" in config then
      match ToInt(config["gpus"])
      case Success(n) => Success(Some(n))
      case Failure(e) => Failure(e)
    else Success(None)
  }
}
