/**
 * src/visual-component.ts: the state of one placed widget and the
 * operations that change it.
 *
 * The host's change detector is reduced to a redraw counter, the two
 * event emitters to one ordered log of emitted signals, and the injected
 * requester to a function from the data source it is given to the way its
 * promise settles.
 */
module Component {
  import opened Json
  import opened Lodash
  import opened Interfaces
  import opened Utils

  /** How the requester's promise settles. */
  datatype Settlement = Resolved(response: Json) | Rejected(error: Json)

  /** A value emitted on `requestSucceeded` or `requestFailed`. */
  datatype Signal = RequestSucceeded(response: Json) | RequestFailed(error: Json)

  /**
   * The constructor's `configs` argument. An absent entry is the empty
   * value, which `isEmpty` and `assign` treat exactly like `undefined`;
   * an absent or empty `version` is falsy.
   */
  datatype Configs = Configs(
    version: string,
    attr: map<string, Json>,
    config: Schema,
    options: map<string, Json>,
    apis: map<string, Api>,
    data: map<string, seq<Json>>,
    events: map<string, Event>,
    actions: map<string, Action>)

  /** `!isEmpty(value) && (field = assign(value, field))`: the field after the statement. */
  function AdoptIfNonEmpty<V>(value: map<string, V>, field: map<string, V>): map<string, V> {
    if value != map[] then Assign(value, field) else field
  }

  /** The argument of `requestData`: a data-source override and an options override, each optional. */
  datatype RequestArgs = RequestArgs(config: Option<map<string, Json>>, options: Option<map<string, Json>>)

  /** The five actions every component advertises. */
  function BuiltinActions(): map<string, Action> {
    map[
      "updateAttr" := Action("更新组件属性"),
      "updateOptions" := Action("更新组件配置"),
      "show" := Action("显示"),
      "hide" := Action("隐藏"),
      "toggleHide" := Action("切换显隐")]
  }

  /** The events added when the component declares data interfaces. */
  function RequestEvents(): map<string, Event> {
    map[
      "requestSucceeded" := Event("当数据接口请求成功时", None),
      "requestFailed" := Event("当数据接口请求失败时", None)]
  }

  /** The actions added when the component declares data interfaces. */
  function RequestActions(): map<string, Action> {
    map[
      "requestData" := Action("请求数据"),
      "render" := Action("导入数据")]
  }

  predicate DeclaresApis(configs: Option<Configs>) {
    configs.Some? && configs.value.apis != map[]
  }

  /** The events of a freshly constructed component (initially `{}`). */
  function InitialEvents(configs: Option<Configs>): (r: map<string, Event>)
    ensures configs.Some? ==> configs.value.events.Keys <= r.Keys
    ensures DeclaresApis(configs) ==> RequestEvents().Keys <= r.Keys
  {
    var initial: map<string, Event> := map[];
    match configs
    case None => initial
    case Some(c) =>
      if c.apis != map[] then Assign(Assign(RequestEvents(), c.events), initial)
      else AdoptIfNonEmpty(c.events, initial)
  }

  /** The actions of a freshly constructed component (initially the five built-ins). */
  function InitialActions(configs: Option<Configs>): (r: map<string, Action>)
    ensures forall name :: name in BuiltinActions() ==> name in r && r[name] == BuiltinActions()[name]
  {
    var initial := BuiltinActions();
    match configs
    case None => initial
    case Some(c) =>
      if c.apis != map[] then Assign(Assign(RequestActions(), c.actions), initial)
      else AdoptIfNonEmpty(c.actions, initial)
  }

  /**
   * With data interfaces declared, the events are the two request events
   * plus the configured ones, whose descriptions win; otherwise they are
   * exactly the configured events.
   */
  lemma EventsPrecedence(configs: Option<Configs>)
    ensures var r := InitialEvents(configs);
      && (DeclaresApis(configs) ==> r.Keys == RequestEvents().Keys + configs.value.events.Keys)
      && (DeclaresApis(configs) ==>
           forall name :: name in r ==> r[name] == if name in configs.value.events then configs.value.events[name] else RequestEvents()[name])
      && (!DeclaresApis(configs) ==> r == if configs.Some? then configs.value.events else map[])
  {
    if configs.Some? {
      AssignEmpty(configs.value.events);
    }
  }

  /**
   * The five built-in actions are always present and win every name
   * clash; configured actions are kept under other names; with data
   * interfaces declared, `requestData` and `render` are added unless
   * configured otherwise.
   */
  lemma ActionsPrecedence(configs: Option<Configs>)
    ensures var r := InitialActions(configs);
      && (forall name :: name in r <==>
           name in BuiltinActions() || (configs.Some? && name in configs.value.actions) || (DeclaresApis(configs) && name in RequestActions()))
      && (configs.Some? ==>
           forall name :: name in configs.value.actions && name !in BuiltinActions() ==> r[name] == configs.value.actions[name])
      && (DeclaresApis(configs) ==>
           forall name :: name in RequestActions() && name !in configs.value.actions ==> r[name] == RequestActions()[name])
  {
  }

  /** Both signals `requestData` can emit are advertised whenever the component declares data interfaces. */
  lemma RequestSignalsAdvertised(configs: Option<Configs>, s: Signal)
    requires DeclaresApis(configs)
    ensures (if s.RequestSucceeded? then "requestSucceeded" else "requestFailed") in InitialEvents(configs)
    ensures "requestData" in InitialActions(configs)
  {
    EventsPrecedence(configs);
    ActionsPrecedence(configs);
    assert "requestSucceeded" in RequestEvents() && "requestFailed" in RequestEvents();
    assert "requestData" in RequestActions();
  }

  class VisualComponent {
    /** Whether a change detector was injected (`_cdr`). */
    const hasChangeDetector: bool
    /** Redraws requested from the change detector so far. */
    var redraws: nat
    /** Values emitted on `requestSucceeded` / `requestFailed`, in order. */
    var emitted: seq<Signal>

    /** `_data`: the current data, compared by reference. */
    var currentData: JsArray?
    var version: string
    var attr: map<string, Json>
    var config: Schema
    var options: JsObject
    var events: map<string, Event>
    var actions: map<string, Action>
    var apis: map<string, Api>
    var data: map<string, seq<Json>>
    var dataConfig: map<string, DataConfig>
    var responseData: map<string, seq<Json>>
    var resources: map<string, Json>
    var isHide: bool
    var noData: bool

    /** Redraws one change-detection call adds: one when a detector is present. */
    function RedrawStep(): nat {
      if hasChangeDetector then 1 else 0
    }

    constructor (configs: Option<Configs>, hasChangeDetector: bool)
      ensures this.hasChangeDetector == hasChangeDetector && redraws == 0 && emitted == []
      ensures version == if configs.Some? && configs.value.version != "" then configs.value.version else "0.0.0"
      ensures attr == if configs.Some? && configs.value.attr != map[] then configs.value.attr else map[]
      ensures config == if configs.Some? && configs.value.config.fields != map[] then configs.value.config else Schema(map[])
      ensures fresh(options)
      ensures options.props == if configs.Some? && configs.value.options != map[] then configs.value.options else map[]
      ensures apis == if configs.Some? && configs.value.apis != map[] then configs.value.apis else map[]
      ensures data == if configs.Some? && configs.value.data != map[] then configs.value.data else map[]
      ensures events == InitialEvents(configs) && actions == InitialActions(configs)
      ensures dataConfig == map[] && responseData == map[] && resources == map[]
      ensures !isHide && !noData && currentData == null
    {
      // the property initialisers
      var version, attr, config, optionProps := "0.0.0", map[], Schema(map[]), map[];
      var apis, data := map[], map[];
      // the constructor body, applied to them
      if configs.Some? {
        var c := configs.value;
        AssignEmpty(c.attr);
        AssignEmpty(c.config.fields);
        AssignEmpty(c.options);
        AssignEmpty(c.apis);
        AssignEmpty(c.data);
        if c.version != "" {
          version := c.version;
        }
        attr := AdoptIfNonEmpty(c.attr, attr);
        config := Schema(AdoptIfNonEmpty(c.config.fields, config.fields));
        optionProps := AdoptIfNonEmpty(c.options, optionProps);
        apis := AdoptIfNonEmpty(c.apis, apis);
        data := AdoptIfNonEmpty(c.data, data);
      }
      this.hasChangeDetector := hasChangeDetector;
      this.version, this.attr, this.config := version, attr, config;
      this.options := new JsObject(optionProps);
      this.apis, this.data := apis, data;
      dataConfig, responseData, resources := map[], map[], map[];
      isHide, noData, currentData := false, false, null;
      redraws, emitted := 0, [];
      // the key-precedence merges of the events and actions
      events, actions := InitialEvents(configs), InitialActions(configs);
    }

    method Show()
      modifies this`isHide, this`redraws
      ensures !isHide
      ensures redraws == old(redraws) + RedrawStep()
    {
      isHide := false;
      if hasChangeDetector {
        redraws := redraws + 1;
      }
    }

    method Hide()
      modifies this`isHide, this`redraws
      ensures isHide
      ensures redraws == old(redraws) + RedrawStep()
    {
      isHide := true;
      if hasChangeDetector {
        redraws := redraws + 1;
      }
    }

    /** Negates the visibility flag, so two calls restore it. */
    method ToggleHide()
      modifies this`isHide, this`redraws
      ensures isHide == !old(isHide)
      ensures redraws == old(redraws) + RedrawStep()
    {
      isHide := !isHide;
      if hasChangeDetector {
        redraws := redraws + 1;
      }
    }

    /** The base hook changes no state; it only redraws. */
    method UpdateOptions(newOptions: map<string, Json>)
      modifies this`redraws
      ensures redraws == old(redraws) + RedrawStep()
    {
      if hasChangeDetector {
        redraws := redraws + 1;
      }
    }

    /** Deep-merges `newAttr` into `attr`. */
    method UpdateAttr(newAttr: map<string, Json>)
      modifies this`attr, this`redraws
      ensures attr == MergeProps(old(attr), newAttr)
      ensures attr.Keys == old(attr).Keys + newAttr.Keys
      ensures forall k :: k in old(attr) && k !in newAttr ==> attr[k] == old(attr)[k]
      ensures redraws == old(redraws) + RedrawStep()
    {
      attr := MergeProps(attr, newAttr);
      if hasChangeDetector {
        redraws := redraws + 1;
      }
    }

    /**
     * Merges the overrides into the primary data source and the options,
     * calls the requester with that data source, and emits exactly one
     * signal according to how the request settles. Without a `source`
     * entry the options are still merged, and then reading its data
     * source throws (`threw`) before any request is made. The data source
     * may be the options object itself, in which case both merges land on
     * it in turn. Whether `mergeDataSource` logged a parse error does not
     * reach the caller. `responseData` is never written.
     */
    method RequestData(args: RequestArgs, codec: Codec, request: map<string, Json> -> Settlement) returns (threw: bool)
      modifies SourceFrame(), options, this`emitted
      ensures threw <==> "source" !in dataConfig
      ensures threw ==> options.props == MergeProps(old(options.props), Override(args.options)) && emitted == old(emitted)
      ensures !threw ==>
        var source := dataConfig["source"].dataSource;
        var merged := MergedDataSource(old(source.props), Some(Override(args.config)), codec).props;
        && (source != options ==> source.props == merged && options.props == MergeProps(old(options.props), Override(args.options)))
        && (source == options ==> options.props == MergeProps(merged, Override(args.options)))
        && |emitted| == |old(emitted)| + 1 && emitted[..|old(emitted)|] == old(emitted)
        && match request(source.props)
           case Resolved(res) => emitted[|old(emitted)|] == RequestSucceeded(res)
           case Rejected(err) => emitted[|old(emitted)|] == RequestFailed(err)
    {
      threw := "source" !in dataConfig;
      if threw {
        options.props := MergeProps(options.props, Override(args.options));
        return;
      }
      var source := dataConfig["source"].dataSource;
      var logged := MergeDataSource(source, Some(Override(args.config)), codec);
      options.props := MergeProps(options.props, Override(args.options));
      var outcome := request(source.props);
      match outcome {
        case Resolved(res) => emitted := emitted + [RequestSucceeded(res)];
        case Rejected(err) => emitted := emitted + [RequestFailed(err)];
      }
    }

    /** The object `requestData` merges into: the primary slot's data source, when there is one. */
    function SourceFrame(): set<object>
      reads this
    {
      if "source" in dataConfig then {dataConfig["source"].dataSource} else {}
    }

    /** Stores `d` when it is given and is not the current data; returns the current data. */
    method SetData(d: JsArray?) returns (r: JsArray?)
      modifies this`currentData
      ensures currentData == if d != null && d != old(currentData) then d else old(currentData)
      ensures d != null ==> currentData == d
      ensures r == currentData
    {
      if d != null && currentData != d {
        currentData := d;
      }
      r := currentData;
    }

    /** Merges `o` into `options` unless it is absent or `options` itself; returns `options`. */
    method SetOptions(o: JsObject?) returns (r: JsObject)
      modifies options
      ensures r == options
      ensures options.props == if o != null && o != options then MergeProps(old(options.props), old(o.props)) else old(options.props)
    {
      if o != null && options != o {
        options.props := MergeProps(options.props, o.props);
      }
      r := options;
    }
  }
}
