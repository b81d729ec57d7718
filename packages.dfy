/** The package metadata handed to the panel, sorted by the caller, and the lookup of the
    package that holds the selected module. */
module Packages {
  import opened JsValues

  datatype ModuleMetadata = ModuleMetadata(name: string)

  /** One published package: its upgrade number and the modules it holds. */
  datatype PackageMetadata = PackageMetadata(name: string, upgradeNumber: string, modules: seq<ModuleMetadata>)

  /** `pkg.modules.find(m => m.name === moduleName)` is truthy: some module of the package has
      that name. An undefined module name equals no module's name. */
  predicate HoldsModule(pkg: PackageMetadata, moduleName: Option<string>) {
    moduleName.Some? && exists m :: m in pkg.modules && m.name == moduleName.value
  }

  /** The position of the first package that holds the module, if any. */
  function FirstHolder(packages: seq<PackageMetadata>, moduleName: Option<string>): (k: Option<nat>)
    ensures k.Some? ==> k.value < |packages| && HoldsModule(packages[k.value], moduleName)
    ensures k.Some? ==> forall j :: 0 <= j < k.value ==> !HoldsModule(packages[j], moduleName)
    ensures k.None? ==> forall j :: 0 <= j < |packages| ==> !HoldsModule(packages[j], moduleName)
  {
    if packages == [] then None
    else if HoldsModule(packages[0], moduleName) then Some(0)
    else match FirstHolder(packages[1..], moduleName)
      case None => None
      case Some(k) => Some(k + 1)
  }

  /** `sortedPackages?.find(...)`: the first package holding the selected module; undefined
      when the list is undefined or no package holds it. */
  function SelectedPackage(packages: Option<seq<PackageMetadata>>, moduleName: Option<string>): Option<PackageMetadata> {
    match packages
    case None => None
    case Some(ps) =>
      match FirstHolder(ps, moduleName)
      case None => None
      case Some(k) => Some(ps[k])
  }

  /** `selectedPackage?.upgrade_number`: the upgrade number shown as "Current". */
  function CurrentUpgradeNumber(packages: Option<seq<PackageMetadata>>, moduleName: Option<string>): Option<string> {
    match SelectedPackage(packages, moduleName)
    case None => None
    case Some(p) => Some(p.upgradeNumber)
  }

  /** The current upgrade number is that of the first package in the list holding the module,
      and it is undefined exactly when the list is undefined or no package holds the module. */
  lemma CurrentUpgradeNumberIsFirstMatch(packages: Option<seq<PackageMetadata>>, moduleName: Option<string>)
    ensures CurrentUpgradeNumber(packages, moduleName).None?
        <==> packages.None? || forall j :: 0 <= j < |packages.value| ==> !HoldsModule(packages.value[j], moduleName)
    ensures CurrentUpgradeNumber(packages, moduleName).Some? ==>
      exists k :: 0 <= k < |packages.value|
        && HoldsModule(packages.value[k], moduleName)
        && (forall j :: 0 <= j < k ==> !HoldsModule(packages.value[j], moduleName))
        && CurrentUpgradeNumber(packages, moduleName).value == packages.value[k].upgradeNumber
  {
  }
}
