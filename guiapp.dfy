/**
 * The Start/Stop Logging button of the graphical application. Only its effect on
 * the logger is modelled; widgets and the chart are not.
 */
module GuiApp {
  import Logger

  class GuiApp {
    const logger: Logger.Logger

    constructor (logger: Logger.Logger)
      ensures this.logger == logger
    {
      this.logger := logger;
    }

    /**
     * Stop turns recording off and keeps the lists for the summary; start empties
     * the lists first and then turns recording on. The queue, the writer's previous
     * record and the writer thread are untouched either way, so toggling twice
     * restores the flag.
     */
    method ToggleLogging()
      requires logger.Valid()
      modifies logger`recordingActive, logger`rpmLog, logger`torqueLog, logger`powerLog, logger`timestampLog
      ensures logger.Valid()
      ensures logger.recordingActive == !old(logger.recordingActive)
      ensures old(logger.recordingActive) ==>
                logger.rpmLog == old(logger.rpmLog) && logger.torqueLog == old(logger.torqueLog)
                && logger.powerLog == old(logger.powerLog) && logger.timestampLog == old(logger.timestampLog)
      ensures !old(logger.recordingActive) ==>
                logger.rpmLog == [] && logger.torqueLog == [] && logger.powerLog == [] && logger.timestampLog == []
    {
      if logger.recordingActive {
        logger.recordingActive := false;
      } else {
        logger.CleanData();
        logger.recordingActive := true;
      }
    }
  }

  /**
   * Stop and start do not reset the writer's previous record. A session records
   * 6000 rpm at 1 s (torque 0: nothing remembered yet); after a stop and a new
   * start the lists are empty again, but the first record of the new session,
   * 12000 rpm at 2 s, is differentiated against the old one and has positive torque.
   */
  method RestartScenario() returns (firstTorque: real, restartTorque: real)
    ensures firstTorque == 0.0
    ensures restartTorque > 0.0
  {
    var logger := new Logger.Logger();
    var app := new GuiApp(logger);
    app.ToggleLogging();
    logger.EnqueData(1, 10_000_000, 1_000_000_000);
    logger.WriterStep();
    firstTorque := logger.torqueLog[0];
    app.ToggleLogging();
    app.ToggleLogging();
    assert logger.torqueLog == [] && logger.recordingActive;
    logger.EnqueData(1, 5_000_000, 2_000_000_000);
    logger.WriterStep();
    restartTorque := logger.torqueLog[0];
  }
}
