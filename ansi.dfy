/** ANSI escape sequences used by the report, and the program's version.
    They are fixed strings; how a terminal interprets them is not modelled. */
module Ansi {

  const BOLD: string := "\U{1B}[1m"
  const ENDC: string := "\U{1B}[0m"
  const GREEN: string := "\U{1B}[92m"
  const RED: string := "\U{1B}[91m"
  const BLUE: string := "\U{1B}[94m"
  const CYAN: string := "\U{1B}[96m"
  const YELLOW: string := "\U{1B}[93m"
  const MAGENTA: string := "\U{1B}[95m"

  /** The colours handed out to images by position, in this order. */
  const Palette: seq<string> := [BLUE, GREEN, RED, CYAN, YELLOW, MAGENTA]

  const ProgramName: string := "docker-pretty-images"
  const Version: string := "1.0.0"
}
