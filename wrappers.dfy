/** Optional values, results, and the failures the test runner can raise. */
module Wrappers {

  datatype Option<+T> = None | Some(value: T)

  datatype Result<+R, +E> = Success(value: R) | Failure(error: E)

  /** The exceptions the runner raises, one constructor per raising site. */
  datatype Error =
    | OutDirMissing                  // ValueError: no --out-dir
    | CoverageNeedsRunTestComponent  // ValueError: coverage under CFv1 without run-test-component
    | UnregisteredFilterFile         // ValueError: a CFv2 filter file outside the filter directory
    | NoFfxSession                   // AssertionError: GetFfxSession with no live session
    | SessionNotOpen                 // AttributeError: output directory of an unset (None) session
    | NoTestConcurrency              // AssertionError: test server enabled with a falsy concurrency
}
