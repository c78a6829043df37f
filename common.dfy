/** Option, Result and the failures the tiering program can run into. */
module Common {

  datatype Option<T> = None | Some(value: T)

  /** The ways one position's tiering fails. Python raises these as
      exceptions; the model returns them. */
  datatype Error =
    | UnboundCurrentLabel   // reorder_labels: `current_label` read before any window assigned it
    | NoWindows             // cluster_and_plot: `labels_copy` returned without any window
    | InvalidClusterCount   // KMeans: cluster count missing, below 1 or above the window's size
    | MissingConfiguration  // get_position_setting: no settings entry for the position
    | MissingWindowSize     // plot: the matched entry has no `plot1`/`plot2`/`plot3`

  datatype Result<T> = Success(value: T) | Failure(error: Error) {
    predicate IsFailure() {
      Failure?
    }

    function PropagateFailure<U>(): Result<U>
      requires Failure?
    {
      Failure(error)
    }

    function Extract(): T
      requires Success?
    {
      value
    }
  }
}
