TestResult.DisplayName,TestResult.Outcome,TestResult.Duration,TestResult.ResourceCount,RandomSeed
SuppliersDashboard.ComputeStats (well-formedness),Passed,00:00:00.5668475,1099501,0
