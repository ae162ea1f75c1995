/** A locally stored prediction draft: `{id, title, outcomes, prediction_window}`. */
module Drafts {
  import opened Js

  datatype Draft = Draft(id: string, title: string, outcomes: seq<string>, predictionWindow: JsNumber)
}
