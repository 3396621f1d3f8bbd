/**
 * The external tool invocations `init` makes through `execSync`, as structured
 * values: a working directory and one of seven fixed commands. The exact shell
 * text is `ShellLine`.
 */
module Tools {

  datatype Tool =
    | CreateVite
    | InstallFrontend
    | InstallRouterAndAxios
    | InitManifest
    | InstallServerPackages
    | InstallTypeScript
    | InstallTailwind

  /** The command run after changing into the working directory. */
  function ToolCommand(tool: Tool): string {
    match tool
    case CreateVite => "npm create vite@latest frontend -- --template react"
    case InstallFrontend => "npm install"
    case InstallRouterAndAxios => "npm install react-router-dom axios"
    case InitManifest => "npm init -y"
    case InstallServerPackages =>
      "npm install express @types/express body-parser @types/body-parser helmet cors @types/cors mongoose morgan @types/morgan dotenv"
    case InstallTypeScript => "npm install -D typescript"
    case InstallTailwind => "npm install -D tailwindcss postcss autoprefixer && npx tailwindcss init -p"
  }

  /** The string handed to `execSync`: `cd <dir> && <command>`. */
  function ShellLine(dir: string, tool: Tool): string {
    "cd " + dir + " && " + ToolCommand(tool)
  }

  /** A tool run in `p` or a directory below it starts its shell line by changing into `p`. */
  lemma ShellLineStartsInProject(dir: string, tool: Tool, p: string)
    requires dir == p || p + "/" <= dir
    ensures "cd " + p <= ShellLine(dir, tool)
  {
  }
}
