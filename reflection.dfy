/**
 * The runtime types the bootstrapping code tests and keys on. A `System.Type` is
 * identified here by its namespace (null for the global namespace) and its simple name.
 */
module Reflection {
  import opened Wrappers

  datatype TypeInfo = TypeInfo(namespace: Option<string>, name: string)

  const IEngine := TypeInfo(Some("Wyam.Common.Execution"), "IEngine")
  const IBootstrapper := TypeInfo(Some("Wyam.Common.Configuration"), "IBootstrapper")
  const IConfigurableBootstrapper := TypeInfo(Some("Wyam.Common.Configuration"), "IConfigurableBootstrapper")
  /** The command-line configurator that `AddCommandConfigurator<TCommand>` configures. */
  const CommandConfigurator := TypeInfo(Some("Spectre.Cli"), "IConfigurator")
  /** The `Meta` shortcode, the one also registered under "=". */
  const Meta := TypeInfo(Some("Wyam.Core.Shortcodes.Metadata"), "Meta")
  const BuildCommand := TypeInfo(Some("Wyam.App.Commands"), "BuildCommand")
  const PreviewCommand := TypeInfo(Some("Wyam.App.Commands"), "PreviewCommand")
}
