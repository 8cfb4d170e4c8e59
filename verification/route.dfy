/** The choice between the two non-interactive fast paths and the interactive loop. */
module Routing {
  import opened Js
  import opened Manifests

  /** `ScriptsMissing`: the manifest is marked `hax.cli` but has no `scripts` object, so
      reading `scripts.start` throws outside any handler and ends the process. */
  datatype Route = SiteFastPath | ComponentFastPath | Interactive | ScriptsMissing

  /** The manifest marks a managed component project with a truthy start script. */
  predicate ManagedComponent(packageData: Option<Manifest>) {
    && packageData.Some?
    && packageData.value.haxCli
    && packageData.value.scripts.Some?
    && TruthyText(packageData.value.scripts.value.start)
  }

  /** An ambient site always wins; a managed component comes second; anything else is
      interactive. */
  function Resolve(siteDetected: bool, packageData: Option<Manifest>): (r: Route)
    ensures siteDetected ==> r == SiteFastPath
    ensures !siteDetected ==> (r == ComponentFastPath <==> ManagedComponent(packageData))
    ensures r == ScriptsMissing <==>
      !siteDetected && packageData.Some? && packageData.value.haxCli && packageData.value.scripts.None?
    ensures r == Interactive <==>
      && !siteDetected
      && !ManagedComponent(packageData)
      && !(packageData.Some? && packageData.value.haxCli && packageData.value.scripts.None?)
  {
    if siteDetected then
      SiteFastPath
    else
      match packageData
      case None => Interactive
      case Some(m) =>
        if !m.haxCli then Interactive
        else match m.scripts
          case None => ScriptsMissing
          case Some(scripts) => if TruthyText(scripts.start) then ComponentFastPath else Interactive
  }
}
