/** The state every venue client shares (`BotBase`): the stop flag the logic
    layer polls, where the order history goes, and its columns. */
module Base {
  import opened Wrappers
  import opened Http
  import opened Logfile

  /** The order-history columns the GMO and bitFlyer clients install. */
  const OrderHistoryColumns: seq<Column> := [
    Column("order_no", "オーダーNo."),
    Column("order_id", "オーダーID"),
    Column("timestamp", "オーダー時刻"),
    Column("order_kind", "オーダー種別"),
    Column("size", "実際にオーダーしたサイズ"),
    Column("price", "実際にオーダーした価格"),
    Column("current_position", "現在ポジション")
  ]

  /** The base `_run_logic`: a venue bot must supply its own, so the base one raises. */
  method RunLogic() returns (o: Outcome<Error>)
    ensures o == Fail(NotImplementedError)
  {
    o := Fail(NotImplementedError);
  }

  class BotBase {
    const exchangeName: string
    const botName: string
    const orderHistoryDir: string
    const targetCsvFile: string
    var stopFlag: bool
    var columns: seq<Column>
    /** The INFO-level messages logged so far. */
    var infoLog: seq<string>

    /** `exchangeName` and `botName` are the configured names (their defaults,
        "Exchange" and "Bot", are applied by the configuration loader). */
    constructor (config: map<string, string>, exchangeName: string, botName: string)
      ensures this.exchangeName == exchangeName && this.botName == botName
      ensures !stopFlag && columns == [] && infoLog == []
      ensures orderHistoryDir == if "log_dir" in config then config["log_dir"] else "log"
      ensures targetCsvFile == exchangeName + "_" + botName + "_order_history.csv"
    {
      this.exchangeName := exchangeName;
      this.botName := botName;
      stopFlag := false;
      orderHistoryDir := if "log_dir" in config then config["log_dir"] else "log";
      columns := [];
      targetCsvFile := exchangeName + "_" + botName + "_order_history.csv";
      infoLog := [];
    }

    /** `stop`: raises the stop flag, whatever it was, and logs it. */
    method Stop()
      modifies this
      ensures stopFlag
      ensures infoLog == old(infoLog) + ["Logic has been stopped."]
      ensures columns == old(columns)
    {
      stopFlag := true;
      infoLog := infoLog + ["Logic has been stopped."];
    }

    /** `start`: runs the bot's logic, whose outcome is `logic`, and logs
        "Bot started." only once that logic has returned normally. */
    method Start(logic: Outcome<Error>) returns (o: Outcome<Error>)
      modifies this
      ensures o == logic
      ensures infoLog == old(infoLog) + (if logic.Pass? then ["Bot started."] else [])
      ensures stopFlag == old(stopFlag) && columns == old(columns)
    {
      if logic.Fail? {
        return logic;
      }
      infoLog := infoLog + ["Bot started."];
      o := Pass;
    }
  }

  /** A bot built on the base logic fails to start and logs nothing. */
  method StartBaseBot(bot: BotBase) returns (o: Outcome<Error>)
    modifies bot
    ensures o == Fail(NotImplementedError)
    ensures bot.infoLog == old(bot.infoLog) && bot.stopFlag == old(bot.stopFlag)
  {
    var logic := RunLogic();
    o := bot.Start(logic);
  }

  /** Stopping twice leaves the flag raised. */
  method StopTwice(bot: BotBase)
    modifies bot
    ensures bot.stopFlag
    ensures bot.infoLog == old(bot.infoLog) + ["Logic has been stopped.", "Logic has been stopped."]
  {
    bot.Stop();
    bot.Stop();
  }
}
