# Default refIds and trend-cursor resizing, in Dafny

This project models two pieces of logic from the IoT application kit's dashboard
and chart components.

- **`assignDefaultRefId`** (module `AssetQuery`, `asset_query.dfy`) walks an IoT
  SiteWise data-stream query. The query holds a list of asset queries, each with
  its own property queries, plus a list of top-level property queries. The pass
  gives each property query a `refId`. A truthy `refId` (present and not `""`) is
  kept. Any other property gets the next id from the generator `getId`. Missing
  `assets` or `properties` lists become empty lists. The generator is an
  infinite id stream `IdStream = nat -> string` plus a position `next`. Each
  result carries the new position, so the model can say which id went where.
  The reference predicate `Assigned` describes the whole pass by position. A
  property at position `i` keeps its query, or it receives
  `getId(next + MissingCount(ps[..i]))`. `MissingCount(ps[..i])` is the number of
  earlier properties that lacked an id. The pass visits asset properties first,
  asset by asset, and then the top-level properties (`AllProperties`).
- **`useHandleResize`** (module `TrendCursorResize`, `trend_cursor_resize.dfy`) is
  the resize handler for a chart's trend cursors. The hook's state is the
  remembered size (`prevSize.current`) plus the cursor graphics. A call with an
  unchanged size does nothing. On any other call, `setGraphic` receives a
  rebuilt list and the new size is remembered. In that list, a cursor's
  `children` are recomputed only when the height changed, and its `x` only when
  the width changed. `calculateXFromTimestamp`, `calculateSeriesMakers` and
  `onResizeUpdateTrendCursorYValues` are not part of this model. They are the
  fields of a `Chart` value that is passed to each call, and the model makes no
  assumption about them.

`js_values.dfy` defines `Option`, which stands for TypeScript's optional fields, and `Fields`, the fields an object spread copies without reading them.

## Model

| member | source | states |
|---|---|---|
| AssetQuery.FillProperties | packages/dashboard/src/customization/widgets/utils/assetQuery/assignDefaultRefId.ts:11-14 | The output list matches `Assigned`: same length and order. A query with a truthy `refId` is kept whole. Any other query keeps its other fields and gets the id at stream position `next` plus the number of earlier queries that lacked one. Exactly one id is drawn per query lacking a `refId`. |
| AssetQuery.FillAssets | packages/dashboard/src/customization/widgets/utils/assetQuery/assignDefaultRefId.ts:9-15 | Same number of assets. Each asset keeps its non-property fields and has as many properties as before. The asset properties, read asset by asset, match `Assigned`. Ids are drawn once per missing `refId`, across all assets in order. |
| AssetQuery.AssignDefaultRefId | packages/dashboard/src/customization/widgets/utils/assetQuery/assignDefaultRefId.ts:5-20 | Both output lists are present, and an absent input list gives `[]`. Asset count, per-asset fields and per-asset property counts are preserved. The top-level properties match `Assigned` from the position where the asset properties stopped. All properties together, asset ones first, match `Assigned` from `next`. The stream advances by exactly the number of properties that lacked a truthy `refId`. |
| AssetQuery.MissingCountAppend | packages/dashboard/src/customization/widgets/utils/assetQuery/assignDefaultRefId.ts:9-19 | The number of ids drawn for two lists visited one after the other is the sum of the two counts. |
| AssetQuery.MissingCountZero | packages/dashboard/src/customization/widgets/utils/assetQuery/assignDefaultRefId.ts:13-18 | A list draws no id if and only if every query in it has a truthy `refId`. |
| AssetQuery.AssignedAppend | packages/dashboard/src/customization/widgets/utils/assetQuery/assignDefaultRefId.ts:9-19 | `Assigned` composes over concatenation: the second list draws its ids from where the first stopped. |
| AssetQuery.AllRefIdsAssigned | packages/dashboard/src/customization/widgets/utils/assetQuery/assignDefaultRefId.ts:13-18 | If the generator never returns `""`, every property query in the output has a truthy `refId`. |
| AssetQuery.FillPropertiesComplete | packages/dashboard/src/customization/widgets/utils/assetQuery/assignDefaultRefId.ts:11-14 | A property list in which every query has a truthy `refId` comes back unchanged and draws no id. |
| AssetQuery.FillAssetsComplete | packages/dashboard/src/customization/widgets/utils/assetQuery/assignDefaultRefId.ts:9-15 | An asset list in which every property has a truthy `refId` comes back unchanged and draws no id. |
| AssetQuery.AssignDefaultRefIdComplete | packages/dashboard/src/customization/widgets/utils/assetQuery/assignDefaultRefId.ts:5-20 | A query in which every property has a truthy `refId` draws no id. Its lists come back unchanged, with absent lists made present. |
| AssetQuery.AssignDefaultRefIdIdempotent | packages/dashboard/src/customization/widgets/utils/assetQuery/assignDefaultRefId.ts:5-20 | If the first generator returns only non-empty ids, re-running the pass on its own output, with any generator, draws no id and returns an equal query. |
| TrendCursorResize.ResizeCursors | packages/react-components/src/components/chart/trendCursor/resize/useHandleResize.ts:12-36 | The mapped list has the same length and cursor order. Each cursor keeps its id, `timestampInMs` and other options. Its `x` is recomputed from the timestamp exactly when the width changed. Its children are recomputed from the series markers at the timestamp exactly when the height changed. |
| TrendCursorResize.HandleResize | packages/react-components/src/components/chart/trendCursor/resize/useHandleResize.ts:8-40 | `setGraphic` is called if and only if the width or the height differs from the remembered size. When it is not called, the remembered size stays as it was. The remembered size always ends equal to the new size. When `setGraphic` is called, its list relates cursor by cursor to the old list as `ResizeCursors` states. |
| TrendCursorResize.UnresizedMountIsStable | packages/react-components/src/components/chart/trendCursor/resize/useHandleResize.ts:9-11 | The mounting size seeds `useRef`. Any sequence of calls that all have that size leaves the state exactly as it was at mount. |
| TrendCursorResize.RunAppend | packages/react-components/src/components/chart/trendCursor/resize/useHandleResize.ts:8-40 | Running a sequence of calls and then one more call gives the state of that one call applied after the run. |
| TrendCursorResize.RepeatedSizeIsNoOp | packages/react-components/src/components/chart/trendCursor/resize/useHandleResize.ts:11-38 | After any non-empty sequence of calls, another call with the last size does not call `setGraphic` and leaves the state unchanged, whatever the chart now computes. |
| TrendCursorResize.OneDimensionResizes | packages/react-components/src/components/chart/trendCursor/resize/useHandleResize.ts:16-33 | Over any sequence of calls that keep the remembered height, every cursor's children stay as they were. Over any sequence that keeps the remembered width, every cursor's `x` stays as it was. |
| TrendCursorResize.RunPreservesCursors | packages/react-components/src/components/chart/trendCursor/resize/useHandleResize.ts:12-38 | Over any sequence of calls, the list keeps its length and each cursor keeps its id and timestamp. After a non-empty sequence, the remembered size is the last call's size. |

## Left out

- The pixel calculations `calculateXFromTimestamp`, `calculateSeriesMakers` and `onResizeUpdateTrendCursorYValues` live in files that are not part of this model. They depend on the charting library, so they are supplied as functions and the model says nothing about their results.
- Chart sizes are exact `real`s compared with `==`. JavaScript numbers are floats, and a `NaN` size would compare unequal to itself and rebuild the cursors on every call. That case is not modelled.
- The handler assigns `g.children` and `g.x` on the existing cursor objects before it passes a copy of the list to `setGraphic`. The old list therefore shares the updated objects. The model builds new cursor records instead, so this aliasing is not represented.
- `Run` assumes that between two calls only this handler changes the cursor list. In the application, cursors are also added, dragged and deleted in between. `RunPreservesCursors`, `OneDimensionResizes` and `RepeatedSizeIsNoOp` hold only in that closed setting.
- `prevSize.current = size` keeps the caller's size object by reference. `Size` is a value here, so a caller that changes that object in place after the call is not represented.
- A cursor's `timestampInMs` is a `real` standing for a JavaScript number. It only feeds the supplied calculations, so float rounding plays no part.
- A cursor's other graphic options (style, z-index, handlers, ...) are one opaque map `Fields`, carried over unchanged.
- React itself (`useRef`, re-rendering, the `setGraphic` state update) is reduced to the `Hook` state and the `Effect` of one call.
- The `uuid` generator is the default for `getId`. It is an abstract id stream here, and only `AllRefIdsAssigned` and `AssignDefaultRefIdIdempotent` assume anything about it: that it never yields `""`.
- The pass builds a new object holding only `assets` and `properties`. Any other top-level key of the input query is dropped. The model's query type has only those two fields, so this is not observable in the model.
- The property queries' other fields (`propertyId`, `propertyAlias`, `resolution`, ...) are one opaque map `Fields`. The asset queries' other fields (`assetId`, ...) are represented the same way. Both are carried over whole, which models the object spreads.
- `useResizeableEChart` (legend-width percentages, echarts `resize` calls, floating-point factors), the modeled data-stream query editor, the scene composer test and the KPI screenshot tests are UI composition, foreign libraries or browser I/O, and are not modelled.
