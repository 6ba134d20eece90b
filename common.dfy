/** Option and Result wrappers, and the exceptions the forecasting code raises. */
module Common {

  datatype Option<+T> = None | Some(value: T)

  /** The exception a Python call would raise, as a value. */
  datatype Error =
    | NotTrained              // ValueError raised by `predict` before training
    | UnseenLabel(column: string)   // LabelEncoder.transform: a label outside `classes_`
    | NoClasses(column: string)     // IndexError on `classes_[0]` of an encoder with no classes
    | MissingColumn(column: string) // KeyError when a frame lacks a column
    | NotFitted               // the regressor was never fitted
    | FeatureNamesMismatch    // scikit-learn: columns differ from the ones seen in fit
    | NoFeatures              // scikit-learn: an input with zero feature columns
    | TooFewSamples           // scikit-learn: zero samples, or a train/test split with an empty side
    | NonNumericInput         // scikit-learn: NaN or a non-number in the input
    | DateOverflow            // OverflowError: a date past 9999-12-31

  datatype Result<+T> = Ok(value: T) | Err(error: Error)
}
