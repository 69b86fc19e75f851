/** The exceptions that abort a transcoding run, one constructor per raising site. */
module Errors {

  datatype Failure =
    /** `strptime(stamp, "%Y_%j")` raised ValueError on the filename stamp. */
    | BadFilenameStamp(stamp: string)
      /** `getattr(source, name)` raised AttributeError: a global attribute is missing. */
    | MissingSourceAttribute(name: string)
      /** Both history-date formats failed; the fallback's ValueError propagates. */
    | BadHistoryDate(text: string)
      /** `numpy.rot90` raised ValueError: the array has too few axes to rotate. */
    | AxesOutOfRange(variable: string)
      /** The netCDF library refused a dimension or variable name that is already in use. */
    | NameInUse(name: string)
      /** `createVariable` named a dimension the target does not define. */
    | UndefinedDimension(name: string)
      /** `Configuration.variables[n]` raised KeyError: no attribute entry for the variable. */
    | UnregisteredVariable(name: string)
      /** `renameDimension` raised KeyError: the dimension to rename does not exist. */
    | NoSuchDimension(name: string)
}
