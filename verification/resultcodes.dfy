/**
 * The status codes the test manager and its reporters exchange: one set for
 * test cases and one for suites, both numbered from 1 in declaration order.
 */
module ResultCodes {
  const TcNotFound := 1
  const TcSkipped := 2
  const TcPassed := 3
  const TcFailed := 4
  const TcError := 5
  const TcCriticalError := 6
  const TcSetupFailed := 7
  const TcSetupError := 8
  const TcTeardownFailed := 9
  const TcTeardownError := 10

  const SuiteOk := 1
  const SuiteNotFound := 2
  const SuiteSkipped := 3
  const SuitePassed := 4
  const SuiteFailed := 5
  const SuiteError := 6
  const SuiteCriticalError := 7
  const SuiteSetupFailed := 8
  const SuiteSetupError := 9
  const SuiteTeardownFailed := 10
  const SuiteTeardownError := 11
}
