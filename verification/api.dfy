/** The remote API's configuration types, as the SDK returns and accepts them. */
module Api {
  import opened Wrappers
  import opened Codec

  /**
   * `keboola.ConfigRow`. An empty `id` means the row has no identifier yet;
   * `content` and `state` are nil-able maps.
   */
  datatype ConfigRow = ConfigRow(
    id: string,
    name: string,
    description: string,
    changeDescription: string,
    isDisabled: bool,
    version: int,
    content: Option<OrderedMap>,
    state: Option<OrderedMap>)

  /** `keboola.ConfigKey`; zero values stand for "not set". */
  datatype ConfigKey = ConfigKey(branchId: int, componentId: string, id: string)

  /**
   * `keboola.Config`. `created` is the creation time as already rendered
   * text; the time-to-text conversion is not part of this model.
   */
  datatype Config = Config(
    key: ConfigKey,
    name: string,
    description: string,
    changeDescription: string,
    isDeleted: bool,
    isDisabled: bool,
    version: int,
    created: string,
    content: Option<OrderedMap>,
    rowsSortOrder: seq<string>)

  /** `keboola.ConfigWithRows`. */
  datatype ConfigWithRows = ConfigWithRows(config: Config, rows: seq<ConfigRow>)
}
