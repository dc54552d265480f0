/**
 * The shapes of src/interfaces.ts, together with the two kinds of heap
 * object the core mutates in place: a plain JavaScript object (a data
 * source, an options record) and an array of records.
 */
module Interfaces {
  import opened Json

  /** A plain JavaScript object whose own properties are updated in place. */
  class JsObject {
    var props: map<string, Json>

    constructor (props: map<string, Json>)
      ensures this.props == props
    {
      this.props := props;
    }
  }

  /** An array of records (`any[]`), compared by reference. */
  class JsArray {
    var items: seq<Json>

    constructor (items: seq<Json>)
      ensures this.items == items
    {
      this.items := items;
    }
  }

  /**
   * Keys of a data-source description (`VisualDataSource`). A data source
   * is a JsObject; besides these it holds `type`, `useFilter`, `filters`,
   * `mockTemplate`, `timePeriod`, `staticData`, `csv`, `database`, `sql`,
   * `prometheus`, `prometheusConfig`, `apacheDruid`, `apacheDruidConfig`
   * and `tingyun`, which the core only merges.
   */
  const ApiKey: string := "api"
  const HeadersKey: string := "headers"
  const BodyKey: string := "body"
  const ParamsKey: string := "params"
  const TingyunConfigKey: string := "tingyunConfig"

  /** `VisualEvent` */
  datatype Event = Event(description: string, fields: Option<string>)

  /** `VisualAction` */
  datatype Action = Action(description: string)

  /** `VisualApiField` */
  datatype ApiField = ApiField(description: string, fieldType: Option<string>, optional: Option<bool>, mapping: Option<string>)

  /** `VisualApi` */
  datatype Api = Api(description: string, handler: string, fields: map<string, ApiField>)

  /** `VisualDataConfig`: one named data-source slot of a component. */
  datatype DataConfig = DataConfig(
    key: string,
    name: Option<string>,
    description: string,
    fields: map<string, ApiField>,
    fieldsMapping: map<string, string>,
    controlledMode: bool,
    autoUpdate: bool,
    timeInterval: int,
    dataSource: JsObject)
}
